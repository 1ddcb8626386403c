/** The lifecycle worker (internal/lifecyclejobs/worker.go). Its methods send the statements
    of the plans one by one, going on after a failed one exactly as the source does, and every
    tick is a run of the job protocol. */
module JobWorker {
  import opened Wrappers
  import opened Backoff
  import opened WireCheck
  import opened JobTable
  import opened WorkerPlan
  import opened JobMachine
  import opened JobStore
  import AapClient

  /** Failures of the statements of a tick itself, and the answers for the jobs it handles. */
  datatype TickWorld = TickWorld(sweepErr: bool, sweepFails: set<nat>, claimErr: bool, dueErr: bool,
                                 answers: nat -> Answer)

  class Worker {
    const cfg: Config
    const store: Store
    const owner: string
    const leaseTTL: int
    const batchSize: nat
    ghost var tickNow: Time
    ghost var renews: seq<RenewCall>

    constructor (cfg: Config, store: Store, owner: string, leaseTTL: int, batchSize: int)
      ensures this.cfg == cfg && this.store == store
      ensures this.leaseTTL > 0 && this.batchSize > 0 && this.owner != ""
      ensures tickNow == store.now && renews == []
    {
      this.cfg, this.store := cfg, store;
      this.owner := if owner == "" then "lifecycle-worker" else owner;
      this.leaseTTL := if leaseTTL <= 0 then 2 * MINUTE else leaseTTL;
      this.batchSize := if batchSize <= 0 then 10 else batchSize;
      tickNow := store.now;
      renews := [];
    }

    /** The state of the protocol while the worker holds the given jobs and statements, and no
        claim is under way; AnyCalls takes what the worker does to every other state. */
    ghost function Machine(batch: seq<WorkerPlan.Claimed>, pending: seq<Write>): State
      reads this, store
    {
      State(store.Contents(), store.now, tickNow, batch, pending, renews, None, [])
    }

    // ----- one job -----

    method Launch(id: JobId, job: Job, ans: Answer)
      requires job.status.Launching? && id < |store.rows|
      modifies store, this`renews
      ensures store.Contents() == ApplySome(old(store.Contents()), LaunchPlan(cfg, id, job, ans), ans.fails, 0)
      ensures store.now == old(store.now)
      ensures renews == if CallsRenew(cfg, job, ans) then old(renews) + [RenewCall(id, ans.renew.Renewed?)] else old(renews)
    {
      if job.aapId.Some? && job.aapId.value > 0 {
        Update(id, RELEASE.(status := Some(AapPending)), ans.fails);
        return;
      }
      if !cfg.hasRenewer || job.predecessor.None? {
        Update(id, Fail("aap renewer not configured or missing predecessor"), ans.fails);
        return;
      }
      if ans.lookup.LookupFailed? {
        return;
      }
      if !ans.lookup.hasRenewalConfig {
        Update(id, Fail("missing renewal config"), ans.fails);
        return;
      }
      renews := renews + [RenewCall(id, ans.renew.Renewed?)];
      match ans.renew {
        case RenewFailed(message) =>
          Conclude(id, Fail("aap launch failed: " + message), JobFailed, RenewalFailed, job.predecessor, ans.fails);
        case Renewed(aap, wf) =>
          RecordLaunch(id, aap, wf, job.predecessor, ans.fails);
      }
    }

    /** The id first; without it the worker gives up, and nothing says that AAP has started. */
    method RecordLaunch(id: JobId, aap: int, wf: bool, cert: Option<CertId>, fails: set<nat>)
      requires id < |store.rows|
      modifies store
      ensures store.Contents() == ApplySome(old(store.Contents()),
                [SetAapRef(id, aap, wf, AapPending), LogJob(id, JobLaunched),
                 Emit(id, RenewalLaunched, cert), UpdateStatus(id, RELEASE)], fails, 0)
      ensures store.now == old(store.now)
    {
      SomeFour(store.Contents(), SetAapRef(id, aap, wf, AapPending), LogJob(id, JobLaunched),
               Emit(id, RenewalLaunched, cert), UpdateStatus(id, RELEASE), fails);
      var ok := store.SetLifecycleAapRef(id, aap, wf, AapPending, 0 in fails);
      if !ok {
        return;
      }
      store.AppendLifecycleJobEvent(id, JobLaunched, 1 in fails);
      store.AppendRenewalOutboxEvent(id, RenewalLaunched, cert, 2 in fails);
      var _ := store.UpdateLifecycleStatus(id, RELEASE, 3 in fails);
    }

    /** A single status update. */
    method Update(id: JobId, u: StatusUpdate, fails: set<nat>)
      modifies store
      ensures store.Contents() == ApplySome(old(store.Contents()), [UpdateStatus(id, u)], fails, 0)
      ensures store.now == old(store.now)
    {
      SomeOne(store.Contents(), UpdateStatus(id, u), fails, 0);
      var _ := store.UpdateLifecycleStatus(id, u, 0 in fails);
    }

    /** A status update, its timeline entry and its outbox event, each whether or not those
        before it could be stored. */
    method Conclude(id: JobId, u: StatusUpdate, entry: TimelineType, event: OutboxType, cert: Option<CertId>, fails: set<nat>)
      modifies store
      ensures store.Contents() == ApplySome(old(store.Contents()),
                [UpdateStatus(id, u), LogJob(id, entry), Emit(id, event, cert)], fails, 0)
      ensures store.now == old(store.now)
    {
      SomeThree(store.Contents(), UpdateStatus(id, u), LogJob(id, entry), Emit(id, event, cert), fails, 0);
      var _ := store.UpdateLifecycleStatus(id, u, 0 in fails);
      store.AppendLifecycleJobEvent(id, entry, 1 in fails);
      store.AppendRenewalOutboxEvent(id, event, cert, 2 in fails);
    }

    method EnterPendingVerify(id: JobId, job: Job, fails: set<nat>, at: nat)
      modifies store
      ensures store.Contents() == ApplySome(old(store.Contents()), EnterPlan(id, job, old(store.now)), fails, at)
      ensures store.now == old(store.now)
    {
      var timeoutAt := job.timeoutAt;
      if timeoutAt == ZERO_TIME {
        timeoutAt := store.now + DAY;
      }
      var (next, _) := NextVerifyAt(store.now, 1, timeoutAt);
      SomeOne(store.Contents(), ScheduleNext(id, 0, next), fails, at);
      var _ := store.ScheduleNextVerify(id, 0, next, at in fails);
    }

    method PollAap(id: JobId, job: Job, ans: Answer)
      modifies store
      ensures store.Contents() == ApplySome(old(store.Contents()), PollPlan(cfg, id, job, ans, old(store.now)), ans.fails, 0)
      ensures store.now == old(store.now)
    {
      if job.aapId.None? || !cfg.hasPoller {
        Update(id, Fail("missing aap job id or poller"), ans.fails);
        return;
      }
      var r := AapClient.WaitForJob(ans.polls);
      if !r.Done? {
        Update(id, RELEASE, ans.fails);
        return;
      }
      var mapped := MapAapStatus(r.status);
      if mapped.Failed? {
        Conclude(id, Fail("aap job " + AapClient.StatusText(r.status)), JobFailed, RenewalFailed, job.predecessor, ans.fails);
      } else if mapped.AapSuccessful? {
        SomeFirst(store.Contents(), LogJob(id, JobAapSuccessful), EnterPlan(id, job, store.now), ans.fails, 0);
        store.AppendLifecycleJobEvent(id, JobAapSuccessful, 0 in ans.fails);
        EnterPendingVerify(id, job, ans.fails, 1);
      } else {
        Update(id, RELEASE.(status := Some(mapped)), ans.fails);
      }
    }

    method VerifyPending(id: JobId, job: Job, ans: Answer, now: Time)
      modifies store
      ensures store.Contents() == ApplySome(old(store.Contents()), VerifyPlan(id, job, ans, now), ans.fails, 0)
      ensures store.now == old(store.now)
    {
      var timeoutAt := job.timeoutAt;
      if timeoutAt == ZERO_TIME {
        timeoutAt := now + DAY;
      }
      if now >= timeoutAt {
        TimeOut(id, job, "verify timeout", None, ans.fails);
        return;
      }
      if job.expected.Undecodable? {
        Update(id, Fail("invalid expected payload"), ans.fails);
        return;
      }
      var expected := job.expected.wire;
      if expected.commonName != "" && ans.page.PageFailed? {
        return;
      }
      var observed := ObserveSuccessor(expected, if ans.page.Page? then ans.page.certs else []);
      var result := VerifyWire(expected, observed);
      if result.Matched? {
        Conclude(id, StatusUpdate(Some(Verified), None, Some(observed), observed.successor, true),
                 JobVerified, RenewalVerified, job.predecessor, ans.fails);
        return;
      }
      Miss(id, job, result.reason, observed, now, timeoutAt, ans.fails);
    }

    method Miss(id: JobId, job: Job, reason: string, observed: ObservedWire, now: Time, timeoutAt: Time, fails: set<nat>)
      requires timeoutAt == Deadline(job, now)
      modifies store
      ensures store.Contents() == ApplySome(old(store.Contents()), MissPlan(id, job, reason, observed, now), fails, 0)
      ensures store.now == old(store.now)
    {
      var attempt := job.attempt + 1;
      var (next, last) := NextVerifyAt(now, attempt, timeoutAt);
      if last && next <= now {
        TimeOut(id, job, reason, Some(observed), fails);
        return;
      }
      var u := StatusUpdate(None, None, Some(observed), None, false);
      SomeFirst(store.Contents(), UpdateStatus(id, u), [ScheduleNext(id, attempt, next)], fails, 0);
      assert [UpdateStatus(id, u)] + [ScheduleNext(id, attempt, next)] == [UpdateStatus(id, u), ScheduleNext(id, attempt, next)];
      var _ := store.UpdateLifecycleStatus(id, u, 0 in fails);
      SomeOne(store.Contents(), ScheduleNext(id, attempt, next), fails, 1);
      var _ := store.ScheduleNextVerify(id, attempt, next, 1 in fails);
    }

    method TimeOut(id: JobId, job: Job, reason: string, observed: Option<ObservedWire>, fails: set<nat>)
      modifies store
      ensures store.Contents() == ApplySome(old(store.Contents()), TimeOutPlan(id, job, reason, observed), fails, 0)
      ensures store.now == old(store.now)
    {
      Conclude(id, StatusUpdate(Some(TimedOut), Some(reason), observed, None, true),
               JobTimedOut, RenewalTimedOut, job.predecessor, fails);
    }

    /** One job of the general claim. */
    method Process(id: JobId, job: Job, ans: Answer)
      requires id < |store.rows|
      modifies store, this`renews
      ensures store.Contents() == ApplySome(old(store.Contents()), ProcessPlan(cfg, id, job, ans, old(store.now)), ans.fails, 0)
      ensures store.now == old(store.now)
      ensures renews == if CallsRenew(cfg, job, ans) then old(renews) + [RenewCall(id, ans.renew.Renewed?)] else old(renews)
    {
      match job.status {
        case Launching => Launch(id, job, ans);
        case AapPending => PollAap(id, job, ans);
        case AapRunning => PollAap(id, job, ans);
        case AapSuccessful => EnterPendingVerify(id, job, ans.fails, 0);
        case Verifying => VerifyPending(id, job, ans, store.now);
        case PendingVerify =>
          if job.nextVerify.Some? && job.nextVerify.value > store.now {
            Update(id, RELEASE, ans.fails);
          } else {
            VerifyPending(id, job, ans, store.now);
          }
        case _ => Update(id, Fail("unexpected status"), ans.fails);
      }
    }

    // ----- a tick -----

    /** The timeout sweep: afterwards no job waits past its deadline at tick time, and every
        job it ended is announced, save for the events that could not be stored. */
    method ExpireTimedOut(now: Time, fails: set<nat>) returns (ghost ids: seq<JobId>)
      modifies store
      ensures ids == ExpiredIds(old(store.rows), now, |old(store.rows)|)
      ensures forall k :: 0 <= k < |ids| ==> ids[k] < |old(store.rows)|
      ensures store.Contents() == ApplySome(old(store.Contents()).(rows := ExpireRows(old(store.rows), now)),
                                            SweepPlan(old(store.rows), ids), fails, 0)
      ensures forall j :: 0 <= j < |store.rows| ==> !Overdue(store.rows[j], now)
      ensures store.now == old(store.now)
    {
      ghost var before := store.rows;
      var expired := store.ExpireTimedOutVerifyJobs(now);
      ids := expired;
      ExpiredIdsMeaning(before, now, |before|);
      assert forall k :: 0 <= k < |expired| ==> expired[k] in expired;
      AnnounceExpired(expired, fails);
      SamePredecessors(before, store.rows, ids);
    }

    /** The loop over the swept jobs. */
    method AnnounceExpired(expired: seq<JobId>, fails: set<nat>)
      requires forall k :: 0 <= k < |expired| ==> expired[k] < |store.rows|
      modifies store
      ensures store.rows == old(store.rows) && store.now == old(store.now)
      ensures store.Contents() == ApplySome(old(store.Contents()), SweepPlan(old(store.rows), expired), fails, 0)
    {
      ghost var db := store.Contents();
      for k := 0 to |expired|
        invariant store.rows == db.rows && store.now == old(store.now)
        invariant ApplySome(store.Contents(), SweepPlan(db.rows, expired[k..]), fails, 2 * k)
               == ApplySome(db, SweepPlan(db.rows, expired), fails, 0)
      {
        assert expired[k..][0] == expired[k] && expired[k..][1..] == expired[k + 1..];
        AnnounceExpiry(expired[k], SweepPlan(db.rows, expired[k + 1..]), fails, 2 * k);
      }
      assert expired[|expired|..] == [];
    }

    /** The two events of one swept job; rest are the events of those after it. */
    method AnnounceExpiry(id: JobId, ghost rest: seq<Write>, fails: set<nat>, at: nat)
      requires id < |store.rows|
      modifies store
      ensures store.rows == old(store.rows) && store.now == old(store.now)
      ensures ApplySome(store.Contents(), rest, fails, at + 2)
           == old(ApplySome(store.Contents(), [LogJob(id, JobTimedOut), Emit(id, RenewalTimedOut, store.rows[id].predecessor)] + rest, fails, at))
    {
      SomeTwo(store.Contents(), LogJob(id, JobTimedOut), Emit(id, RenewalTimedOut, store.rows[id].predecessor), rest, fails, at);
      store.AppendLifecycleJobEvent(id, JobTimedOut, at in fails);
      store.AppendRenewalOutboxEvent(id, RenewalTimedOut, store.rows[id].predecessor, at + 1 in fails);
    }

    /** One tick: sweep, claim and process, claim and verify what is due; a failing sweep is
        passed over, a failing claim ends the tick. Whatever happens is a run of the protocol:
        one sweep, one claim and one due claim in this order, each followed by the work on
        what it handed out, swept, claimed and due. */
    method Tick(world: TickWorld) returns (ghost swept: seq<Step>, ghost claimed: seq<Step>, ghost due: seq<Step>)
      modifies store, this`renews, this`tickNow
      ensures Leads(cfg, old(Machine([], [])), TickSteps(world, owner, leaseTTL, batchSize, swept, claimed, due), Machine([], []))
      ensures AllWork(swept) && AllWork(claimed) && AllWork(due)
      ensures tickNow == old(store.now)
    {
      ghost var start := Machine([], []);
      var now := store.now;
      tickNow := now;
      LeadsOne(cfg, start, StartTick, Machine([], []));
      ghost var m0 := Machine([], []);
      swept := SweepPart(world, now);
      ghost var m1 := Machine([], []);
      var used;
      used, claimed := ClaimPart(world, now);
      ghost var m2 := Machine([], []);
      due := DuePart(world, used, now);
      LeadsConcat(cfg, start, [StartTick], m0, SweepSteps(world, swept), m1);
      LeadsConcat(cfg, start, [StartTick] + SweepSteps(world, swept), m1, ClaimSteps(world, owner, leaseTTL, batchSize, claimed), m2);
      LeadsConcat(cfg, start, [StartTick] + SweepSteps(world, swept) + ClaimSteps(world, owner, leaseTTL, batchSize, claimed), m2,
                  DueSteps(world, leaseTTL, batchSize, due), Machine([], []));
    }

    method SweepPart(world: TickWorld, now: Time) returns (ghost swept: seq<Step>)
      requires tickNow == now
      modifies store
      ensures Leads(cfg, old(Machine([], [])), SweepSteps(world, swept), Machine([], [])) && AllWork(swept)
    {
      swept := [];
      if !world.sweepErr {
        swept := SweepTick(now, world.sweepFails);
      }
    }

    method ClaimPart(world: TickWorld, now: Time) returns (used: nat, ghost claimed: seq<Step>)
      requires tickNow == now
      modifies store, this`renews
      ensures Leads(cfg, old(Machine([], [])), ClaimSteps(world, owner, leaseTTL, batchSize, claimed), Machine([], []))
      ensures AllWork(claimed)
    {
      used, claimed := 0, [];
      if !world.claimErr {
        ghost var m := Machine([], []);
        var jobs := ClaimJobs(now);
        ghost var u := Machine(jobs, []);
        used := |jobs|;
        claimed := HandleAll(jobs, world.answers, 0, now);
        LeadsCons(cfg, m, Step.Claim(owner, leaseTTL, batchSize), u, claimed, Machine([], []));
      }
    }

    method DuePart(world: TickWorld, used: nat, now: Time) returns (ghost due: seq<Step>)
      requires tickNow == now
      modifies store, this`renews
      ensures Leads(cfg, old(Machine([], [])), DueSteps(world, leaseTTL, batchSize, due), Machine([], []))
      ensures AllWork(due)
    {
      due := [];
      if !world.claimErr && !world.dueErr {
        ghost var m := Machine([], []);
        var jobs := ClaimDueJobs(now);
        ghost var u := Machine(jobs, []);
        due := HandleAll(jobs, world.answers, used, now);
        LeadsCons(cfg, m, Step.ClaimDue(leaseTTL, batchSize), u, due, Machine([], []));
      }
    }

    method ClaimJobs(now: Time) returns (jobs: seq<WorkerPlan.Claimed>)
      requires tickNow == now
      modifies store
      ensures Next(cfg, old(Machine([], [])), Step.Claim(owner, leaseTTL, batchSize), Machine(jobs, []))
      ensures forall k :: 0 <= k < |jobs| ==> jobs[k].id < |store.rows|
    {
      ghost var m := Machine([], []);
      jobs := store.ClaimLifecycleJobs(owner, leaseTTL, batchSize);
      assert Machine(jobs, []) == GeneralClaim(m, owner, leaseTTL, batchSize);
    }

    method ClaimDueJobs(now: Time) returns (jobs: seq<WorkerPlan.Claimed>)
      requires tickNow == now
      modifies store
      ensures Next(cfg, old(Machine([], [])), Step.ClaimDue(leaseTTL, batchSize), Machine(jobs, []))
      ensures forall k :: 0 <= k < |jobs| ==> jobs[k].id < |store.rows|
    {
      ghost var m := Machine([], []);
      jobs := store.ClaimDueVerifyJobs(now, leaseTTL, batchSize);
      assert Machine(jobs, []) == DueClaim(m, leaseTTL, batchSize);
    }

    /** The jobs of one claim, in order. */
    method HandleAll(jobs: seq<WorkerPlan.Claimed>, answers: nat -> Answer, used: nat, now: Time)
      returns (ghost steps: seq<Step>)
      requires tickNow == now && forall k :: 0 <= k < |jobs| ==> jobs[k].id < |store.rows|
      modifies store, this`renews
      ensures Leads(cfg, old(Machine(jobs, [])), steps, Machine([], [])) && AllWork(steps)
    {
      ghost var start := Machine(jobs, []);
      steps := [];
      assert jobs[0..] == jobs;
      for i := 0 to |jobs|
        invariant tickNow == now && forall k :: 0 <= k < |jobs| ==> jobs[k].id < |store.rows|
        invariant Leads(cfg, start, steps, Machine(jobs[i..], [])) && AllWork(steps)
      {
        ghost var m := Machine(jobs[i..], []);
        assert jobs[i..][0] == jobs[i] && jobs[i..][1..] == jobs[i + 1..];
        ghost var more := Handle(jobs[i..], answers(used + i), now);
        LeadsConcat(cfg, start, steps, m, more, Machine(jobs[i + 1..], []));
        steps := steps + more;
      }
      assert jobs[|jobs|..] == [];
    }

    method SweepTick(now: Time, fails: set<nat>) returns (ghost sends: seq<Step>)
      requires tickNow == now
      modifies store
      ensures Leads(cfg, old(Machine([], [])), [Sweep] + sends, Machine([], [])) && AllWork(sends)
      ensures store.now == old(store.now)
      ensures forall j :: 0 <= j < |store.rows| ==> !Overdue(store.rows[j], now)
    {
      ghost var m := Machine([], []);
      ghost var after := Swept(m);
      ghost var ids := ExpireTimedOut(now, fails);
      sends := Attempts(after.pending, fails, 0);
      AttemptsLead(cfg, after, after.pending, fails, 0);
      LeadsCons(cfg, m, Sweep, after, sends, Machine([], []));
    }

    method HandleOne(c: WorkerPlan.Claimed, ans: Answer, now: Time) returns (ghost plan: seq<Write>)
      requires c.id < |store.rows|
      modifies store, this`renews
      ensures plan == Plan(cfg, c, ans, old(store.now), now)
      ensures store.Contents() == ApplySome(old(store.Contents()), plan, ans.fails, 0)
      ensures store.now == old(store.now)
      ensures renews == if WorkerPlan.Renews(cfg, c, ans) then old(renews) + [RenewCall(c.id, ans.renew.Renewed?)] else old(renews)
    {
      plan := Plan(cfg, c, ans, store.now, now);
      if c.due {
        VerifyPending(c.id, c.snap, ans, now);
      } else {
        Process(c.id, c.snap, ans);
      }
    }

    /** The first job of the batch, from the time the worker turns to it. */
    method Handle(batch: seq<WorkerPlan.Claimed>, ans: Answer, now: Time) returns (ghost steps: seq<Step>)
      requires batch != [] && tickNow == now && batch[0].id < |store.rows|
      modifies store, this`renews
      ensures Leads(cfg, old(Machine(batch, [])), steps, Machine(batch[1..], [])) && AllWork(steps)
      ensures |store.rows| == |old(store.rows)|
    {
      ghost var m := Machine(batch, []);
      store.Advance(ans.elapsed);
      ghost var u := Machine(batch, []);
      ghost var sends := HandleBegun(batch, ans, now);
      LeadsCons(cfg, m, Pass(ans.elapsed), u, [Begin(ans)] + sends, Machine(batch[1..], []));
      WorkOf(ans.elapsed, ans, sends);
      steps := [Pass(ans.elapsed)] + ([Begin(ans)] + sends);
    }

    method HandleBegun(batch: seq<WorkerPlan.Claimed>, ans: Answer, now: Time) returns (ghost sends: seq<Step>)
      requires batch != [] && tickNow == now && batch[0].id < |store.rows|
      modifies store, this`renews
      ensures Leads(cfg, old(Machine(batch, [])), [Begin(ans)] + sends, Machine(batch[1..], [])) && AllWork(sends)
      ensures |store.rows| == |old(store.rows)|
    {
      ghost var m := Machine(batch, []);
      ghost var plan := HandleOne(batch[0], ans, now);
      SameRows(m.db, plan, ans.fails, 0);
      sends := Attempts(plan, ans.fails, 0);
      HandledLeads(cfg, m, ans, plan, sends);
      assert Machine(batch[1..], []) == Handled(cfg, m, ans, plan);
    }
  }

  /** The state in which the plan of the first job is pending. */
  function Begun(cfg: Config, s: State, ans: Answer, plan: seq<Write>): State
    requires s.batch != []
  {
    s.(batch := s.batch[1..], pending := plan,
       renews := if WorkerPlan.Renews(cfg, s.batch[0], ans)
                 then s.renews + [RenewCall(s.batch[0].id, ans.renew.Renewed?)] else s.renews)
  }

  lemma BegunLeads(cfg: Config, s: State, ans: Answer, plan: seq<Write>, sends: seq<Step>, t: State)
    requires s.batch != [] && s.pending == [] && plan == Plan(cfg, s.batch[0], ans, s.now, s.tickNow)
    requires Leads(cfg, Begun(cfg, s, ans, plan), sends, t)
    ensures Leads(cfg, s, [Begin(ans)] + sends, t)
  {
    assert Exec(cfg, s, Begin(ans)) == Begun(cfg, s, ans, plan);
    LeadsCons(cfg, s, Begin(ans), Begun(cfg, s, ans, plan), sends, t);
  }

  lemma AttemptsReach(cfg: Config, s: State, ws: seq<Write>, fails: set<nat>, t: State)
    requires s.pending == ws && s.orphan.None?
    requires t == s.(db := ApplySome(s.db, ws, fails, 0), pending := [])
    ensures Leads(cfg, s, Attempts(ws, fails, 0), t) && AllWork(Attempts(ws, fails, 0))
  {
    AttemptsLead(cfg, s, ws, fails, 0);
  }

  lemma WorkOf(e: nat, ans: Answer, sends: seq<Step>)
    requires AllWork(sends)
    ensures AllWork([Pass(e)] + ([Begin(ans)] + sends))
  {
  }

  /** The state after the first job of a batch. */
  function Handled(cfg: Config, s: State, ans: Answer, plan: seq<Write>): State
    requires s.batch != []
  {
    Begun(cfg, s, ans, plan).(db := ApplySome(s.db, plan, ans.fails, 0), pending := [])
  }

  lemma HandledLeads(cfg: Config, s: State, ans: Answer, plan: seq<Write>, sends: seq<Step>)
    requires s.batch != [] && s.pending == [] && s.orphan.None?
    requires plan == Plan(cfg, s.batch[0], ans, s.now, s.tickNow) && sends == Attempts(plan, ans.fails, 0)
    ensures Leads(cfg, s, [Begin(ans)] + sends, Handled(cfg, s, ans, plan)) && AllWork(sends)
  {
    AttemptsReach(cfg, Begun(cfg, s, ans, plan), plan, ans.fails, Handled(cfg, s, ans, plan));
    BegunLeads(cfg, s, ans, plan, sends, Handled(cfg, s, ans, plan));
  }

  lemma {:induction false} SamePredecessors(rows: seq<Job>, rows': seq<Job>, ids: seq<JobId>)
    requires |rows| == |rows'| && forall k :: 0 <= k < |rows| ==> rows'[k].predecessor == rows[k].predecessor
    requires forall k :: 0 <= k < |ids| ==> ids[k] < |rows|
    ensures SweepPlan(rows, ids) == SweepPlan(rows', ids)
    decreases |ids|
  {
    if ids != [] {
      SamePredecessors(rows, rows', ids[1..]);
    }
  }

  // ----- plans with failing statements -----

  lemma SomeOne(db: Db, w: Write, fails: set<nat>, at: nat)
    ensures ApplySome(db, [w], fails, at) == if at in fails then db else Apply(db, w)
  {
    assert [w][1..] == [];
  }

  lemma SomeFirst(db: Db, w: Write, rest: seq<Write>, fails: set<nat>, at: nat)
    requires !w.SetAapRef?
    ensures ApplySome(db, [w] + rest, fails, at) == ApplySome(if at in fails then db else Apply(db, w), rest, fails, at + 1)
  {
    assert ([w] + rest)[1..] == rest;
  }

  lemma SomeTwo(db: Db, a: Write, b: Write, rest: seq<Write>, fails: set<nat>, at: nat)
    requires !a.SetAapRef? && !b.SetAapRef?
    ensures var db1 := if at in fails then db else Apply(db, a);
            var db2 := if at + 1 in fails then db1 else Apply(db1, b);
            ApplySome(db, [a, b] + rest, fails, at) == ApplySome(db2, rest, fails, at + 2)
  {
    var db1 := if at in fails then db else Apply(db, a);
    SomeFirst(db, a, [b] + rest, fails, at);
    assert [a, b] + rest == [a] + ([b] + rest);
    SomeFirst(db1, b, rest, fails, at + 1);
  }

  lemma SomeThree(db: Db, a: Write, b: Write, c: Write, fails: set<nat>, at: nat)
    requires !a.SetAapRef? && !b.SetAapRef?
    ensures var db1 := if at in fails then db else Apply(db, a);
            var db2 := if at + 1 in fails then db1 else Apply(db1, b);
            ApplySome(db, [a, b, c], fails, at) == if at + 2 in fails then db2 else Apply(db2, c)
  {
    SomeTwo(db, a, b, [c], fails, at);
    assert [a, b] + [c] == [a, b, c];
    var db1 := if at in fails then db else Apply(db, a);
    SomeOne(if at + 1 in fails then db1 else Apply(db1, b), c, fails, at + 2);
  }

  lemma SomeFour(db: Db, a: Write, b: Write, c: Write, d: Write, fails: set<nat>)
    requires a.SetAapRef? && !b.SetAapRef? && !c.SetAapRef?
    ensures var db1 := Apply(db, a);
            var db2 := if 1 in fails then db1 else Apply(db1, b);
            var db3 := if 2 in fails then db2 else Apply(db2, c);
            ApplySome(db, [a, b, c, d], fails, 0)
            == if 0 in fails then db else if 3 in fails then db3 else Apply(db3, d)
  {
    assert [a, b, c, d][1..] == [b, c, d];
    SomeThree(Apply(db, a), b, c, d, fails, 1);
  }

  lemma {:induction false} SameRows(db: Db, ws: seq<Write>, fails: set<nat>, at: nat)
    ensures |ApplySome(db, ws, fails, at).rows| == |db.rows|
    decreases |ws|
  {
    if ws != [] {
      if at in fails {
        SameRows(db, AfterLoss(ws), fails, at + 1);
      } else {
        SameRows(Apply(db, ws[0]), ws[1..], fails, at + 1);
      }
    }
  }

  // ----- the steps of a tick -----

  /** Time passing, turning to a job, and its statements. */
  predicate IsWork(step: Step) {
    step.Pass? || step.Begin? || step.Send? || step.Lost?
  }

  ghost predicate AllWork(steps: seq<Step>) {
    forall k :: 0 <= k < |steps| ==> IsWork(steps[k])
  }

  function TickSteps(world: TickWorld, owner: string, ttl: int, limit: nat,
                     swept: seq<Step>, claimed: seq<Step>, due: seq<Step>): seq<Step>
  {
    [StartTick] + SweepSteps(world, swept) + ClaimSteps(world, owner, ttl, limit, claimed) + DueSteps(world, ttl, limit, due)
  }

  function SweepSteps(world: TickWorld, swept: seq<Step>): seq<Step> {
    if world.sweepErr then [] else [Sweep] + swept
  }

  function ClaimSteps(world: TickWorld, owner: string, ttl: int, limit: nat, claimed: seq<Step>): seq<Step> {
    if world.claimErr then [] else [Step.Claim(owner, ttl, limit)] + claimed
  }

  function DueSteps(world: TickWorld, ttl: int, limit: nat, due: seq<Step>): seq<Step> {
    if world.claimErr || world.dueErr then [] else [Step.ClaimDue(ttl, limit)] + due
  }

  function Attempts(ws: seq<Write>, fails: set<nat>, at: nat): seq<Step>
    decreases |ws|
  {
    if ws == [] then []
    else if at in fails then [Lost] + Attempts(AfterLoss(ws), fails, at + 1)
    else [Send] + Attempts(ws[1..], fails, at + 1)
  }

  lemma {:induction false} AttemptsLead(cfg: Config, s: State, ws: seq<Write>, fails: set<nat>, at: nat)
    requires s.pending == ws && (ws == [] ==> s.orphan.None?)
    ensures Leads(cfg, s, Attempts(ws, fails, at),
                  s.(db := ApplySome(s.db, ws, fails, at), pending := [], orphan := None))
    ensures AllWork(Attempts(ws, fails, at))
    decreases |ws|
  {
    if ws != [] {
      var u := if at in fails then AfterLost(s) else AfterSend(s);
      AttemptsLead(cfg, u, u.pending, fails, at + 1);
      var rest := Attempts(u.pending, fails, at + 1);
      LeadsCons(cfg, s, if at in fails then Lost else Send, u, rest,
                s.(db := ApplySome(s.db, ws, fails, at), pending := [], orphan := None));
    }
  }

  predicate IsWorkerStep(step: Step) {
    IsWork(step) || step.StartTick? || step.Sweep? || step.Claim? || step.ClaimDue?
  }

  lemma ClaimsIgnoreCalls(s: State, owner: string, ttl: int, limit: nat, calls: seq<Call>)
    ensures GeneralClaim(s.(calls := calls), owner, ttl, limit) == GeneralClaim(s, owner, ttl, limit).(calls := calls)
    ensures DueClaim(s.(calls := calls), ttl, limit) == DueClaim(s, ttl, limit).(calls := calls)
  {
  }

  lemma SweepIgnoresCalls(s: State, calls: seq<Call>)
    ensures Swept(s.(calls := calls)) == Swept(s).(calls := calls)
  {
  }

  lemma CallsStandAside(cfg: Config, s: State, step: Step, calls: seq<Call>)
    requires Enabled(s, step) && IsWorkerStep(step)
    ensures Next(cfg, s.(calls := calls), step, Exec(cfg, s, step).(calls := calls))
  {
    if step.Claim? {
      ClaimsIgnoreCalls(s, step.owner, step.ttl, step.limit, calls);
    } else if step.ClaimDue? {
      ClaimsIgnoreCalls(s, "", step.ttl, step.limit, calls);
    } else if step.Sweep? {
      SweepIgnoresCalls(s, calls);
    }
  }

  /** The worker does the same whatever claim handlers are under way. */
  lemma {:induction false} AnyCalls(cfg: Config, s: State, steps: seq<Step>, t: State, calls: seq<Call>)
    requires Leads(cfg, s, steps, t) && forall k :: 0 <= k < |steps| ==> IsWorkerStep(steps[k])
    ensures Leads(cfg, s.(calls := calls), steps, t.(calls := calls))
    decreases |steps|
  {
    if steps != [] {
      var u := Exec(cfg, s, steps[0]);
      assert IsWorkerStep(steps[0]);
      AnyCalls(cfg, u, steps[1..], t, calls);
      CallsStandAside(cfg, s, steps[0], calls);
    }
  }

  lemma LeadsOne(cfg: Config, s: State, step: Step, t: State)
    requires Next(cfg, s, step, t)
    ensures Leads(cfg, s, [step], t)
  {
    assert [step][1..] == [];
  }

  /** One more step at the front of a run. */
  lemma LeadsCons(cfg: Config, s: State, step: Step, u: State, rest: seq<Step>, t: State)
    requires Next(cfg, s, step, u) && Leads(cfg, u, rest, t)
    ensures Leads(cfg, s, [step] + rest, t)
  {
    assert ([step] + rest)[1..] == rest;
  }
}
