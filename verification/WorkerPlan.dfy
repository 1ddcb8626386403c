/** What the lifecycle worker decides for a claimed job, as the list of statements it sends
    (internal/lifecyclejobs/worker.go, process to verifyPending). */
module WorkerPlan {
  import opened Wrappers
  import opened Backoff
  import opened WireCheck
  import opened JobTable
  import AapClient

  datatype Config = Config(hasRenewer: bool, hasPoller: bool)

  datatype CertLookup = LookupFailed | Found(hasRenewalConfig: bool)
  datatype RenewResult = RenewFailed(message: string) | Renewed(aap: int, wf: bool)
  datatype PageResult = PageFailed | Page(certs: seq<Certificate>)

  /** What the world answers while one job is processed; fails numbers the statements of the
      job, from zero, that the database refuses. */
  datatype Answer = Answer(elapsed: nat, lookup: CertLookup, renew: RenewResult,
                           polls: seq<AapClient.Poll>, page: PageResult, fails: set<nat>)

  function MapAapStatus(st: AapClient.AapStatus): Status {
    match st
    case Pending => AapPending
    case Running => AapRunning
    case Successful => AapSuccessful
    case Failed => Status.Failed
    case Error => Status.Failed
    case Canceled => Status.Failed
    case Unknown => AapPending
  }

  /** A job row as read when it was claimed, and the claim it came from. */
  datatype Claimed = Claimed(id: JobId, snap: Job, due: bool)

  /** The worker asks AAP for a renewal. */
  predicate CallsRenew(cfg: Config, job: Job, ans: Answer) {
    job.status.Launching? && !(job.aapId.Some? && job.aapId.value > 0)
    && cfg.hasRenewer && job.predecessor.Some?
    && ans.lookup.Found? && ans.lookup.hasRenewalConfig
  }

  function LaunchPlan(cfg: Config, id: JobId, job: Job, ans: Answer): seq<Write> {
    if job.aapId.Some? && job.aapId.value > 0 then
      [UpdateStatus(id, RELEASE.(status := Some(AapPending)))]
    else if !cfg.hasRenewer || job.predecessor.None? then
      [UpdateStatus(id, Fail("aap renewer not configured or missing predecessor"))]
    else
      match ans.lookup
      case LookupFailed => []
      case Found(false) => [UpdateStatus(id, Fail("missing renewal config"))]
      case Found(true) =>
        match ans.renew
        case RenewFailed(message) =>
          [UpdateStatus(id, Fail("aap launch failed: " + message)),
           LogJob(id, JobFailed), Emit(id, RenewalFailed, job.predecessor)]
        case Renewed(aap, wf) =>
          [SetAapRef(id, aap, wf, AapPending), LogJob(id, JobLaunched),
           Emit(id, RenewalLaunched, job.predecessor), UpdateStatus(id, RELEASE)]
  }

  function Deadline(job: Job, now: Time): Time {
    if job.timeoutAt == ZERO_TIME then now + DAY else job.timeoutAt
  }

  function EnterPlan(id: JobId, job: Job, now: Time): seq<Write> {
    [ScheduleNext(id, 0, NextVerifyAt(now, 1, Deadline(job, now)).0)]
  }

  function PollPlan(cfg: Config, id: JobId, job: Job, ans: Answer, now: Time): seq<Write> {
    if job.aapId.None? || !cfg.hasPoller then
      [UpdateStatus(id, Fail("missing aap job id or poller"))]
    else
      var r := AapClient.Wait(ans.polls);
      if !r.Done? then [UpdateStatus(id, RELEASE)]
      else
        match MapAapStatus(r.status)
        case Failed =>
          [UpdateStatus(id, Fail("aap job " + AapClient.StatusText(r.status))), LogJob(id, JobFailed),
           Emit(id, RenewalFailed, job.predecessor)]
        case AapSuccessful => [LogJob(id, JobAapSuccessful)] + EnterPlan(id, job, now)
        case mapped => [UpdateStatus(id, RELEASE.(status := Some(mapped)))]
  }

  /** What one probe finds. */
  datatype Probe =
    | PastDeadline
    | BadExpectation
    | PageUnavailable
    | Success(observed: ObservedWire)
    | Miss(reason: string, observed: ObservedWire)

  function ProbeWire(job: Job, page: PageResult, now: Time): (p: Probe)
    ensures p.PastDeadline? <==> now >= Deadline(job, now)
  {
    if now >= Deadline(job, now) then PastDeadline
    else if job.expected.Undecodable? then BadExpectation
    else if job.expected.wire.commonName != "" && page.PageFailed? then PageUnavailable
    else
      var observed := Observe(job.expected.wire, if page.Page? then page.certs else []);
      match VerifyWire(job.expected.wire, observed)
      case Matched => Success(observed)
      case Missed(reason) => Miss(reason, observed)
  }

  function TimeOutPlan(id: JobId, job: Job, reason: string, observed: Option<ObservedWire>): seq<Write> {
    [UpdateStatus(id, StatusUpdate(Some(TimedOut), Some(reason), observed, None, true)),
     LogJob(id, JobTimedOut), Emit(id, RenewalTimedOut, job.predecessor)]
  }

  function VerifiedPlan(id: JobId, job: Job, observed: ObservedWire): seq<Write> {
    [UpdateStatus(id, StatusUpdate(Some(Verified), None, Some(observed), observed.successor, true)),
     LogJob(id, JobVerified), Emit(id, RenewalVerified, job.predecessor)]
  }

  function MissPlan(id: JobId, job: Job, reason: string, observed: ObservedWire, now: Time): seq<Write> {
    var (next, last) := NextVerifyAt(now, job.attempt + 1, Deadline(job, now));
    if last && next <= now then TimeOutPlan(id, job, reason, Some(observed))
    else
      [UpdateStatus(id, StatusUpdate(None, None, Some(observed), None, false)),
       ScheduleNext(id, job.attempt + 1, next)]
  }

  function VerifyPlan(id: JobId, job: Job, ans: Answer, now: Time): seq<Write> {
    match ProbeWire(job, ans.page, now)
    case PastDeadline => TimeOutPlan(id, job, "verify timeout", None)
    case BadExpectation => [UpdateStatus(id, Fail("invalid expected payload"))]
    case PageUnavailable => []
    case Success(observed) => VerifiedPlan(id, job, observed)
    case Miss(reason, observed) => MissPlan(id, job, reason, observed, now)
  }

  function ProcessPlan(cfg: Config, id: JobId, job: Job, ans: Answer, now: Time): seq<Write> {
    match job.status
    case Launching => LaunchPlan(cfg, id, job, ans)
    case AapPending => PollPlan(cfg, id, job, ans, now)
    case AapRunning => PollPlan(cfg, id, job, ans, now)
    case AapSuccessful => EnterPlan(id, job, now)
    case Verifying => VerifyPlan(id, job, ans, now)
    case PendingVerify =>
      if job.nextVerify.Some? && job.nextVerify.value > now then [UpdateStatus(id, RELEASE)]
      else VerifyPlan(id, job, ans, now)
    case _ => [UpdateStatus(id, Fail("unexpected status"))]
  }

  /** Jobs from the general claim read the clock afresh; jobs claimed as due are probed at
      the time the tick started. */
  function Plan(cfg: Config, c: Claimed, ans: Answer, now: Time, tickNow: Time): seq<Write> {
    if c.due then VerifyPlan(c.id, c.snap, ans, tickNow)
    else ProcessPlan(cfg, c.id, c.snap, ans, now)
  }

  predicate Renews(cfg: Config, c: Claimed, ans: Answer) {
    !c.due && CallsRenew(cfg, c.snap, ans)
  }

  /** A finished wait has one of two outcomes, so the worker's fallback that stores the
      mapped status is never taken. */
  lemma FinishedWaitHasTwoOutcomes(script: seq<AapClient.Poll>)
    requires AapClient.Wait(script).Done?
    ensures MapAapStatus(AapClient.Wait(script).status).Failed?
            || MapAapStatus(AapClient.Wait(script).status).AapSuccessful?
  {
    AapClient.WaitMeaning(script);
  }

  function Snapshots(rows: seq<Job>, ids: seq<JobId>, due: bool): (batch: seq<Claimed>)
    requires forall k :: 0 <= k < |ids| ==> ids[k] < |rows|
    ensures |batch| == |ids|
    ensures forall k :: 0 <= k < |ids| ==> batch[k] == Claimed(ids[k], rows[ids[k]], due)
  {
    seq(|ids|, k requires 0 <= k < |ids| => Claimed(ids[k], rows[ids[k]], due))
  }

  ghost predicate Only(id: JobId, ws: seq<Write>) {
    forall k :: 0 <= k < |ws| ==> ws[k].id == id
  }

  lemma VerifyKeepsToItsJob(id: JobId, job: Job, ans: Answer, now: Time)
    ensures Only(id, VerifyPlan(id, job, ans, now))
  {
  }

  lemma LaunchKeepsToItsJob(cfg: Config, id: JobId, job: Job, ans: Answer)
    ensures Only(id, LaunchPlan(cfg, id, job, ans))
  {
  }

  lemma PollKeepsToItsJob(cfg: Config, id: JobId, job: Job, ans: Answer, now: Time)
    ensures Only(id, PollPlan(cfg, id, job, ans, now))
  {
  }

  /** Processing a job touches no other job. */
  lemma PlanKeepsToItsJob(cfg: Config, c: Claimed, ans: Answer, now: Time, tickNow: Time)
    ensures Only(c.id, Plan(cfg, c, ans, now, tickNow))
  {
    VerifyKeepsToItsJob(c.id, c.snap, ans, if c.due then tickNow else now);
    if !c.due {
      if c.snap.status.Launching? {
        LaunchKeepsToItsJob(cfg, c.id, c.snap, ans);
      } else if c.snap.status.AapPending? || c.snap.status.AapRunning? {
        PollKeepsToItsJob(cfg, c.id, c.snap, ans, now);
      }
    }
  }

  /** The events the sweep appends for the rows it expired. */
  function SweepPlan(rows: seq<Job>, ids: seq<JobId>): seq<Write>
    requires forall k :: 0 <= k < |ids| ==> ids[k] < |rows|
    decreases |ids|
  {
    if ids == [] then []
    else [LogJob(ids[0], JobTimedOut), Emit(ids[0], RenewalTimedOut, rows[ids[0]].predecessor)]
         + SweepPlan(rows, ids[1..])
  }
}
