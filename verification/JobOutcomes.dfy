/** What the worker makes of the answers it gets: told by the certificates on a page and the raw
    status strings of AAP, not by the worker's own tests. */
module JobOutcomes {
  import opened Wrappers
  import opened Backoff
  import opened WireCheck
  import opened JobTable
  import opened WorkerPlan
  import opened JobMachine
  import opened JobInvariants
  import opened JobTheorems
  import AapClient

  // ----- verification -----

  predicate BeforeDeadline(job: Job, now: Time) {
    job.timeoutAt == ZERO_TIME || now < job.timeoutAt
  }

  /** A page could be read, and its certificates have fingerprints. */
  predicate Readable(page: PageResult) {
    page.Page? && forall c :: c in page.certs ==> c.fingerprint != ""
  }

  ghost predicate ShowsRenewal(e: ExpectedWire, page: PageResult) {
    e.commonName != "" && page.Page? && exists c :: c in page.certs && IsRenewal(e, c)
  }

  /** A renewed certificate of the page that expires last. */
  ghost predicate LastRenewal(e: ExpectedWire, page: PageResult, c: Certificate) {
    && page.Page? && c in page.certs && IsRenewal(e, c)
    && forall d :: d in page.certs && IsRenewal(e, d) ==> d.notAfter <= c.notAfter
  }

  predicate StoresVerified(w: Write) {
    w.UpdateStatus? && w.u.status == Some(Verified)
  }

  function Outcome(status: Status, reason: Option<string>, observed: Option<ObservedWire>, successor: Option<CertId>): StatusUpdate {
    StatusUpdate(Some(status), reason, observed, successor, true)
  }

  /** What is sent for a verified job: the certificate goes into the row, and the lease ends. */
  function VerifiedBy(id: JobId, job: Job, e: ExpectedWire, c: Certificate): seq<Write> {
    [UpdateStatus(id, Outcome(Verified, None, Some(ObservedWire(e.commonName, c.fingerprint, c.notAfter, Some(c.id), c.managedInVault)), Some(c.id))),
     LogJob(id, JobVerified), Emit(id, RenewalVerified, job.predecessor)]
  }

  /** When the probe after the given one runs, with deadlines counted from now where the row has
      none. */
  function ProbeAfter(job: Job, now: Time, attempt: nat): Time {
    var deadline := if job.timeoutAt == ZERO_TIME then now + DAY else job.timeoutAt;
    if now + NextVerifyDelay(attempt) < deadline then now + NextVerifyDelay(attempt) else deadline
  }

  ghost predicate Reschedules(ws: seq<Write>, id: JobId, job: Job, now: Time) {
    exists seen :: ws == [UpdateStatus(id, StatusUpdate(None, None, Some(seen), None, false)),
                          ScheduleNext(id, job.attempt + 1, ProbeAfter(job, now, job.attempt + 1))]
  }

  function Seen(e: ExpectedWire, c: Certificate): ObservedWire {
    ObservedWire(e.commonName, c.fingerprint, c.notAfter, Some(c.id), c.managedInVault)
  }

  lemma MatchMeaning(e: ExpectedWire, certs: seq<Certificate>)
    ensures var o := Observe(e, certs);
            VerifyWire(e, o).Matched? ==>
              && e.commonName != ""
              && (exists c :: LastRenewal(e, Page(certs), c) && o == Seen(e, c))
  {
    var o := Observe(e, certs);
    if VerifyWire(e, o).Matched? {
      BestIsLatest(e, certs, |certs|);
      var b := BestOf(e, certs, |certs|);
      assert b.Some? && o == Describe(certs[b.value]);
      forall d | d in certs && IsRenewal(e, d) ensures d.notAfter <= certs[b.value].notAfter {
        var k :| 0 <= k < |certs| && certs[k] == d;
      }
      assert LastRenewal(e, Page(certs), certs[b.value]);
    }
  }

  /** A probe before the deadline of a job whose expectation decodes: the job is verified if and
      only if the page shows a renewed certificate, then by the one that expires last; otherwise
      it is probed again. */
  lemma VerifiedIff(id: JobId, job: Job, ans: Answer, now: Time)
    requires BeforeDeadline(job, now) && job.expected.Wire? && Readable(ans.page)
    ensures var ws, e := VerifyPlan(id, job, ans, now), job.expected.wire;
            && ((exists w :: w in ws && StoresVerified(w)) <==> ShowsRenewal(e, ans.page))
            && (ShowsRenewal(e, ans.page) ==> exists c :: LastRenewal(e, ans.page, c) && ws == VerifiedBy(id, job, e, c))
            && (!ShowsRenewal(e, ans.page) ==> Reschedules(ws, id, job, now))
  {
    var e, certs := job.expected.wire, ans.page.certs;
    var o := Observe(e, certs);
    ProbeSucceedsIff(e, certs);
    MatchMeaning(e, certs);
    var ws := VerifyPlan(id, job, ans, now);
    if VerifyWire(e, o).Matched? {
      assert ws[0] in ws && StoresVerified(ws[0]);
    } else {
      MissAlwaysReschedules(now, job.attempt + 1, Deadline(job, now));
      assert ws == [UpdateStatus(id, StatusUpdate(None, None, Some(o), None, false)),
                    ScheduleNext(id, job.attempt + 1, ProbeAfter(job, now, job.attempt + 1))];
    }
  }

  /** The probes that do not get as far as comparing certificates. */
  lemma UnverifiedOtherwise(id: JobId, job: Job, ans: Answer, now: Time)
    ensures var ws := VerifyPlan(id, job, ans, now);
            && (!BeforeDeadline(job, now) ==>
                  ws == [UpdateStatus(id, Outcome(TimedOut, Some("verify timeout"), None, None)),
                         LogJob(id, JobTimedOut), Emit(id, RenewalTimedOut, job.predecessor)])
            && (BeforeDeadline(job, now) && job.expected.Undecodable? ==>
                  ws == [UpdateStatus(id, Outcome(Failed, Some("invalid expected payload"), None, None))])
            && (BeforeDeadline(job, now) && job.expected.Wire? && ans.page.PageFailed? ==>
                  if job.expected.wire.commonName != "" then ws == [] else Reschedules(ws, id, job, now))
  {
    if BeforeDeadline(job, now) && job.expected.Wire? && job.expected.wire.commonName == "" {
      MissAlwaysReschedules(now, job.attempt + 1, Deadline(job, now));
      var ws := VerifyPlan(id, job, ans, now);
      assert ws == [UpdateStatus(id, StatusUpdate(None, None, Some(NOTHING_OBSERVED), None, false)),
                    ScheduleNext(id, job.attempt + 1, ProbeAfter(job, now, job.attempt + 1))];
    }
  }

  // ----- polling -----

  predicate EndsWell(raw: string) {
    raw == "successful"
  }

  predicate EndsBadly(raw: string) {
    raw == "failed" || raw == "error" || raw == "canceled"
  }

  /** At poll k AAP says how the job ended, or fails to answer for the fifth time in a row. */
  predicate WaitStops(polls: seq<AapClient.Poll>, k: nat) {
    k < |polls|
    && (|| (polls[k].Polled? && (EndsWell(polls[k].raw) || EndsBadly(polls[k].raw)))
        || (k >= 4 && forall m :: k - 4 <= m <= k ==> polls[m].PollFailed?))
  }

  predicate StopsFirst(polls: seq<AapClient.Poll>, k: nat) {
    WaitStops(polls, k) && forall m :: 0 <= m < k ==> !WaitStops(polls, m)
  }

  lemma StopsAlike(polls: seq<AapClient.Poll>, k: nat)
    ensures WaitStops(polls, k) <==> AapClient.StopsAt(polls, k)
  {
    if AapClient.FifthFailureAt(polls, k) {
      assert forall m :: k - 4 <= m <= k ==> polls[m].PollFailed?;
    }
    if WaitStops(polls, k) && polls[k].PollFailed? {
      assert forall m :: k - AapClient.MAX_POLL_FAILURES < m <= k ==> polls[m].PollFailed?;
    }
  }

  lemma WaitDecided(polls: seq<AapClient.Poll>, k: nat)
    requires StopsFirst(polls, k)
    ensures var r := AapClient.Wait(polls);
            && (polls[k].PollFailed? ==> !r.Done?)
            && (polls[k].Polled? ==> r == AapClient.Done(AapClient.NormalizeStatus(polls[k].raw)))
  {
    forall m: nat ensures WaitStops(polls, m) <==> AapClient.StopsAt(polls, m) {
      StopsAlike(polls, m);
    }
    assert AapClient.FirstStop(polls, k);
    AapClient.WaitMeaning(polls);
    forall m | AapClient.FirstStop(polls, m) ensures m == k {
      assert AapClient.StopsAt(polls, m) && AapClient.StopsAt(polls, k);
    }
  }

  lemma WaitUndecided(polls: seq<AapClient.Poll>)
    requires forall k :: 0 <= k < |polls| ==> !WaitStops(polls, k)
    ensures !AapClient.Wait(polls).Done?
  {
    AapClient.WaitMeaning(polls);
    forall k ensures !AapClient.FirstStop(polls, k) {
      if 0 <= k < |polls| {
        StopsAlike(polls, k);
      }
    }
  }

  const RELEASED := StatusUpdate(None, None, None, None, true)

  /** What a poller makes of the answer at which the wait stops: "failed", "error" and "canceled"
      fail the job and are announced, "successful" is logged and schedules the first probe,
      and after the fifth failing answer in a row the job is only given back. */
  lemma PolledMeaning(cfg: Config, id: JobId, job: Job, ans: Answer, now: Time, k: nat)
    requires job.aapId.Some? && cfg.hasPoller && StopsFirst(ans.polls, k)
    ensures var ws := PollPlan(cfg, id, job, ans, now);
            match ans.polls[k]
            case PollFailed => ws == [UpdateStatus(id, RELEASED)]
            case Polled(raw) =>
              ws == if EndsWell(raw) then [LogJob(id, JobAapSuccessful), ScheduleNext(id, 0, ProbeAfter(job, now, 1))]
                    else [UpdateStatus(id, Outcome(Failed, Some("aap job " + raw), None, None)),
                          LogJob(id, JobFailed), Emit(id, RenewalFailed, job.predecessor)]
  {
    WaitDecided(ans.polls, k);
  }

  /** Without such an answer, or without an id or a poller. */
  lemma UnpolledMeaning(cfg: Config, id: JobId, job: Job, ans: Answer, now: Time)
    ensures var ws := PollPlan(cfg, id, job, ans, now);
            && (job.aapId.None? || !cfg.hasPoller ==>
                  ws == [UpdateStatus(id, Outcome(Failed, Some("missing aap job id or poller"), None, None))])
            && (job.aapId.Some? && cfg.hasPoller && (forall k :: 0 <= k < |ans.polls| ==> !WaitStops(ans.polls, k)) ==>
                  ws == [UpdateStatus(id, RELEASED)])
  {
    if forall k :: 0 <= k < |ans.polls| ==> !WaitStops(ans.polls, k) {
      WaitUndecided(ans.polls);
    }
  }

  /** So of the answers at which the wait stops exactly three fail the job, and exactly one lets
      it go on. */
  lemma FailedIffAapFailed(cfg: Config, id: JobId, job: Job, ans: Answer, now: Time, k: nat)
    requires job.aapId.Some? && cfg.hasPoller && StopsFirst(ans.polls, k) && ans.polls[k].Polled?
    ensures var ws, raw := PollPlan(cfg, id, job, ans, now), ans.polls[k].raw;
            && ((exists w :: w in ws && w.UpdateStatus? && w.u.status == Some(Failed)) <==>
                  raw == "failed" || raw == "error" || raw == "canceled")
            && ((exists w :: w in ws && w.Emit? && w.event.RenewalFailed?) <==>
                  raw == "failed" || raw == "error" || raw == "canceled")
            && ((exists w :: w in ws && w.ScheduleNext? && w.attempt == 0) <==> raw == "successful")
            && (LogJob(id, JobAapSuccessful) in ws <==> raw == "successful")
  {
    PolledMeaning(cfg, id, job, ans, now, k);
    var ws := PollPlan(cfg, id, job, ans, now);
    if EndsWell(ans.polls[k].raw) {
      assert ws[0] in ws && ws[1] in ws;
    } else {
      assert ws[0] in ws && ws[2] in ws;
    }
  }

  // ----- launching, and the statuses at hand -----

  /** Renew is called for a job that a renewer can take, and what AAP answers is recorded. */
  lemma LaunchedMeaning(cfg: Config, c: Claimed, ans: Answer, now: Time, tickNow: Time)
    requires !c.due && c.snap.status.Launching? && c.snap.aapId.None?
    ensures var ws := Plan(cfg, c, ans, now, tickNow);
            if !cfg.hasRenewer || c.snap.predecessor.None? then
              ws == [UpdateStatus(c.id, Outcome(Failed, Some("aap renewer not configured or missing predecessor"), None, None))]
            else if ans.lookup.LookupFailed? then ws == []
            else if !ans.lookup.hasRenewalConfig then
              ws == [UpdateStatus(c.id, Outcome(Failed, Some("missing renewal config"), None, None))]
            else match ans.renew
              case RenewFailed(message) =>
                ws == [UpdateStatus(c.id, Outcome(Failed, Some("aap launch failed: " + message), None, None)),
                       LogJob(c.id, JobFailed), Emit(c.id, RenewalFailed, c.snap.predecessor)]
              case Renewed(aap, wf) =>
                ws == [SetAapRef(c.id, aap, wf, AapPending), LogJob(c.id, JobLaunched),
                       Emit(c.id, RenewalLaunched, c.snap.predecessor), UpdateStatus(c.id, RELEASED)]
    ensures WorkerPlan.Renews(cfg, c, ans) <==>
              cfg.hasRenewer && c.snap.predecessor.Some? && ans.lookup.Found? && ans.lookup.hasRenewalConfig
  {
  }

  /** What a claimed job is taken for: by its status at the claim and, while it waits for its
      next probe, by the clock. Due jobs are probed on the time the tick started. */
  lemma TakenFor(cfg: Config, c: Claimed, ans: Answer, now: Time, tickNow: Time)
    ensures var ws, job := Plan(cfg, c, ans, now, tickNow), c.snap;
            if c.due then ws == VerifyPlan(c.id, job, ans, tickNow)
            else match job.status
              case Launching => job.aapId.Some? && job.aapId.value > 0 ==> ws == [UpdateStatus(c.id, RELEASED.(status := Some(AapPending)))]
              case AapPending => ws == PollPlan(cfg, c.id, job, ans, now)
              case AapRunning => ws == PollPlan(cfg, c.id, job, ans, now)
              case AapSuccessful => ws == [ScheduleNext(c.id, 0, ProbeAfter(job, now, 1))]
              case Verifying => ws == VerifyPlan(c.id, job, ans, now)
              case PendingVerify =>
                ws == if job.nextVerify.Some? && now < job.nextVerify.value then [UpdateStatus(c.id, RELEASED)]
                      else VerifyPlan(c.id, job, ans, now)
              case _ => ws == [UpdateStatus(c.id, Outcome(Failed, Some("unexpected status"), None, None))]
  {
  }

  // ----- what the statements leave in the table -----

  /** All fields of a row a status update names are as given, all others as they were. */
  lemma UpdatedRow(db: Db, id: JobId, u: StatusUpdate)
    requires id < |db.rows|
    ensures var r, r' := db.rows[id], Apply(db, UpdateStatus(id, u)).rows[id];
            && r' == r.(status := r'.status, failureReason := r'.failureReason, observed := r'.observed,
                        successor := r'.successor, leaseOwner := r'.leaseOwner, leaseExpires := r'.leaseExpires)
            && (if u.status.None? then r'.status == r.status else u.status == Some(r'.status))
            && r'.failureReason == (if u.reason.None? then r.failureReason else u.reason)
            && r'.observed == (if u.observed.None? then r.observed else u.observed)
            && r'.successor == (if u.successor.None? then r.successor else u.successor)
            && (if u.clearLease then r'.leaseOwner.None? && r'.leaseExpires.None?
                else r'.leaseOwner == r.leaseOwner && r'.leaseExpires == r.leaseExpires)
    ensures forall j :: 0 <= j < |db.rows| && j != id ==> Apply(db, UpdateStatus(id, u)).rows[j] == db.rows[j]
  {
  }

  /** A launch whose statements all succeed: the row holds what AAP answered and is free to be
      polled by anyone, and the launch is logged once in either log. */
  lemma LaunchedRow(cfg: Config, db: Db, c: Claimed, ans: Answer, now: Time, tickNow: Time)
    requires c.id < |db.rows| && !c.due && c.snap.status.Launching? && c.snap.aapId.None?
    requires WorkerPlan.Renews(cfg, c, ans) && ans.renew.Renewed?
    ensures ApplyAll(db, Plan(cfg, c, ans, now, tickNow))
         == Db(db.rows[c.id := db.rows[c.id].(aapId := Some(ans.renew.aap), workflow := ans.renew.wf, status := AapPending,
                                               leaseOwner := None, leaseExpires := None)],
               db.timeline + [JobEvent(c.id, JobLaunched)],
               db.outbox + [OutboxEvent(c.id, RenewalLaunched, c.snap.predecessor)])
  {
    LaunchedMeaning(cfg, c, ans, now, tickNow);
    ApplyFew(db, SetAapRef(c.id, ans.renew.aap, ans.renew.wf, AapPending), LogJob(c.id, JobLaunched),
             Emit(c.id, RenewalLaunched, c.snap.predecessor), UpdateStatus(c.id, RELEASED));
  }

  /** A verification whose statements all succeed. */
  lemma VerifiedRow(db: Db, id: JobId, job: Job, e: ExpectedWire, c: Certificate)
    requires id < |db.rows|
    ensures ApplyAll(db, VerifiedBy(id, job, e, c))
         == Db(db.rows[id := db.rows[id].(status := Verified, successor := Some(c.id), leaseOwner := None, leaseExpires := None,
                               observed := Some(ObservedWire(e.commonName, c.fingerprint, c.notAfter, Some(c.id), c.managedInVault)))],
               db.timeline + [JobEvent(id, JobVerified)],
               db.outbox + [OutboxEvent(id, RenewalVerified, job.predecessor)])
  {
    var ws := VerifiedBy(id, job, e, c);
    ApplyFew(db, ws[0], ws[1], ws[2], ws[2]);
  }

  /** A job sent to verification, or probed in vain, waits for its next probe without a lease. */
  lemma ScheduledRow(db: Db, id: JobId, attempt: nat, next: Time)
    requires id < |db.rows|
    ensures Apply(db, ScheduleNext(id, attempt, next))
         == db.(rows := db.rows[id := db.rows[id].(status := PendingVerify, attempt := attempt, nextVerify := Some(next),
                                                   leaseOwner := None, leaseExpires := None)])
  {
  }

  // ----- over runs: a verified job has been seen renewed -----

  /** The worker probes the job before its deadline, and the page shows a renewed certificate of
      what the job expects, with the given id. */
  ghost predicate ProbeShows(s: State, step: Step, j: JobId, successor: CertId) {
    step.Begin? && s.batch != [] && s.batch[0].id == j && j < |s.db.rows|
    && s.db.rows[j].expected.Wire?
    && (if s.batch[0].due then s.tickNow else s.now) < s.db.rows[j].timeoutAt
    && exists c :: LastRenewal(s.db.rows[j].expected.wire, step.ans.page, c) && c.id == successor
  }

  predicate BringsVerified(w: Write, j: JobId, successor: CertId) {
    w.id == j && StoresVerified(w) && w.u.successor == Some(successor)
  }

  predicate VerifiedPending(s: State, j: JobId, successor: CertId) {
    exists k :: 0 <= k < |s.pending| && BringsVerified(s.pending[k], j, successor)
  }

  lemma PlanBringsVerified(id: JobId, job: Job, ans: Answer, now: Time, w: Write)
    requires w in VerifyPlan(id, job, ans, now) && StoresVerified(w)
    ensures w.id == id && BeforeDeadline(job, now) && job.expected.Wire?
    ensures exists c :: LastRenewal(job.expected.wire, ans.page, c) && w.u.successor == Some(c.id)
  {
    MissAlwaysReschedules(now, job.attempt + 1, Deadline(job, now));
    var e := job.expected.wire;
    var certs := if ans.page.Page? then ans.page.certs else [];
    MatchMeaning(e, certs);
    assert VerifyWire(e, Observe(e, certs)).Matched?;
    assert w == VerifyPlan(id, job, ans, now)[0];
    var c :| LastRenewal(e, Page(certs), c) && Observe(e, certs) == Seen(e, c);
    assert LastRenewal(e, ans.page, c);
  }

  lemma OthersBringNone(cfg: Config, c: Claimed, ans: Answer, now: Time, tickNow: Time, w: Write)
    requires !c.due && !c.snap.status.Verifying? && !c.snap.status.PendingVerify?
    requires w in Plan(cfg, c, ans, now, tickNow)
    ensures !StoresVerified(w)
  {
    if c.snap.status.AapPending? || c.snap.status.AapRunning? {
      PollBringsNone(cfg, c.id, c.snap, ans, now);
    }
  }

  lemma PollBringsNone(cfg: Config, id: JobId, job: Job, ans: Answer, now: Time)
    ensures forall w :: w in PollPlan(cfg, id, job, ans, now) ==> !StoresVerified(w)
  {
  }

  lemma BeginBringsVerified(cfg: Config, s: State, ans: Answer, t: State, j: JobId, successor: CertId)
    requires Inv(s) && Next(cfg, s, Begin(ans), t) && VerifiedPending(t, j, successor)
    ensures ProbeShows(s, Begin(ans), j, successor)
  {
    var c := s.batch[0];
    assert ClaimedOk(s, c);
    var k :| 0 <= k < |t.pending| && BringsVerified(t.pending[k], j, successor);
    var w := t.pending[k];
    assert w in Plan(cfg, c, ans, s.now, s.tickNow);
    if c.due {
      PlanBringsVerified(c.id, c.snap, ans, s.tickNow, w);
    } else if c.snap.status.PendingVerify? {
      PlanBringsVerified(c.id, c.snap, ans, s.now, w);
    } else {
      OthersBringNone(cfg, c, ans, s.now, s.tickNow, w);
    }
  }

  lemma SweepBringsNone(s: State, j: JobId, successor: CertId)
    requires Inv(s)
    ensures !VerifiedPending(Swept(s), j, successor)
  {
    var ids := ExpiredIds(s.db.rows, s.tickNow, |s.db.rows|);
    SweptRows(s.db, s.now, s.tickNow, ids);
    SweepPlanNeutral(s.db.rows, ids);
  }

  lemma VerifiedPendingStep(cfg: Config, s: State, step: Step, t: State, j: JobId, successor: CertId)
    requires Inv(s) && Next(cfg, s, step, t) && VerifiedPending(t, j, successor)
    ensures VerifiedPending(s, j, successor) || ProbeShows(s, step, j, successor)
  {
    if step.Begin? {
      BeginBringsVerified(cfg, s, step.ans, t, j, successor);
    } else if step.Sweep? {
      SweepBringsNone(s, j, successor);
    } else if step.Send? || step.Lost? {
      var k :| 0 <= k < |t.pending| && BringsVerified(t.pending[k], j, successor);
      assert s.pending[k + 1] == t.pending[k];
    }
  }

  ghost predicate ShowingsTraced(states: seq<State>, steps: seq<Step>, j: JobId, successor: CertId) {
    |states| == |steps| + 1 && !VerifiedPending(states[0], j, successor)
    && forall m :: 0 <= m < |steps| && VerifiedPending(states[m + 1], j, successor) ==>
         VerifiedPending(states[m], j, successor) || ProbeShows(states[m], steps[m], j, successor)
  }

  lemma RunTracesShowings(cfg: Config, states: seq<State>, steps: seq<Step>, j: JobId, successor: CertId)
    requires IsRun(cfg, states, steps)
    ensures ShowingsTraced(states, steps, j, successor)
  {
    forall m | 0 <= m < |steps| && VerifiedPending(states[m + 1], j, successor)
      ensures VerifiedPending(states[m], j, successor) || ProbeShows(states[m], steps[m], j, successor)
    {
      RunKeeps(cfg, states, steps, m);
      VerifiedPendingStep(cfg, states[m], steps[m], states[m + 1], j, successor);
    }
  }

  lemma {:induction false} ShowingOf(states: seq<State>, steps: seq<Step>, m: nat, j: JobId, successor: CertId) returns (l: nat)
    requires ShowingsTraced(states, steps, j, successor) && m < |states| && VerifiedPending(states[m], j, successor)
    ensures l < m && ProbeShows(states[l], steps[l], j, successor)
  {
    if VerifiedPending(states[m - 1], j, successor) {
      l := ShowingOf(states, steps, m - 1, j, successor);
    } else {
      l := m - 1;
      assert ProbeShows(states[l], steps[l], j, successor);
    }
  }

  predicate IsVerified(db: Db, j: JobId) {
    j < |db.rows| && db.rows[j].status.Verified?
  }

  /** The statement that makes the job verified, and with which successor. */
  predicate SendsVerified(s: State, step: Step, j: JobId, successor: CertId) {
    step.Send? && s.pending != [] && BringsVerified(s.pending[0], j, successor)
  }

  ghost predicate SendsSomeVerified(s: State, step: Step, j: JobId) {
    exists successor :: SendsVerified(s, step, j, successor)
  }

  lemma VerifiedStep(cfg: Config, s: State, step: Step, t: State, j: JobId)
    requires Inv(s) && Next(cfg, s, step, t) && IsVerified(t.db, j) && !IsVerified(s.db, j)
    ensures step.Send? && s.pending != [] && s.pending[0].id == j && StoresVerified(s.pending[0])
  {
    if step.ApiInsert? {
      NewRowOk(step.n, s.now);
    }
  }

  /** A plan that stores verified names the successor. */
  predicate NamesSuccessor(w: Write) {
    StoresVerified(w) ==> w.u.successor.Some?
  }

  ghost predicate SuccessorsNamed(s: State) {
    forall k :: 0 <= k < |s.pending| ==> NamesSuccessor(s.pending[k])
  }

  lemma PlanNamesSuccessor(cfg: Config, c: Claimed, ans: Answer, now: Time, tickNow: Time, w: Write)
    requires w in Plan(cfg, c, ans, now, tickNow)
    ensures NamesSuccessor(w)
  {
    if StoresVerified(w) {
      if c.due {
        PlanBringsVerified(c.id, c.snap, ans, tickNow, w);
      } else if c.snap.status.PendingVerify? || c.snap.status.Verifying? {
        PlanBringsVerified(c.id, c.snap, ans, now, w);
      } else {
        OthersBringNone(cfg, c, ans, now, tickNow, w);
      }
    }
  }

  lemma StepNamesSuccessors(cfg: Config, s: State, step: Step, t: State)
    requires Inv(s) && Next(cfg, s, step, t) && SuccessorsNamed(s)
    ensures SuccessorsNamed(t)
  {
    if step.Begin? {
      forall k | 0 <= k < |t.pending| ensures NamesSuccessor(t.pending[k]) {
        PlanNamesSuccessor(cfg, s.batch[0], step.ans, s.now, s.tickNow, t.pending[k]);
      }
    } else if step.Sweep? {
      var ids := ExpiredIds(s.db.rows, s.tickNow, |s.db.rows|);
      SweptRows(s.db, s.now, s.tickNow, ids);
      SweepPlanNeutral(s.db.rows, ids);
    } else if step.Send? || step.Lost? {
      forall k | 0 <= k < |t.pending| ensures NamesSuccessor(t.pending[k]) {
        assert s.pending[k + 1] == t.pending[k];
      }
    }
  }

  lemma {:induction false} RunNamesSuccessors(cfg: Config, states: seq<State>, steps: seq<Step>, i: nat)
    requires IsRun(cfg, states, steps) && i < |states|
    ensures SuccessorsNamed(states[i])
  {
    if i > 0 {
      RunNamesSuccessors(cfg, states, steps, i - 1);
      RunKeeps(cfg, states, steps, i - 1);
      StepNamesSuccessors(cfg, states[i - 1], steps[i - 1], states[i]);
    } else {
      assert states[0].pending == [];
    }
  }

  ghost predicate VerifiedTraced(states: seq<State>, steps: seq<Step>, j: JobId) {
    |states| == |steps| + 1 && !IsVerified(states[0].db, j)
    && forall m :: 0 <= m < |steps| && IsVerified(states[m + 1].db, j) ==>
         IsVerified(states[m].db, j) || SendsSomeVerified(states[m], steps[m], j)
  }

  lemma RunTracesVerified(cfg: Config, states: seq<State>, steps: seq<Step>, j: JobId)
    requires IsRun(cfg, states, steps)
    ensures VerifiedTraced(states, steps, j)
  {
    forall m | 0 <= m < |steps| && IsVerified(states[m + 1].db, j) && !IsVerified(states[m].db, j)
      ensures SendsSomeVerified(states[m], steps[m], j)
    {
      RunKeeps(cfg, states, steps, m);
      RunNamesSuccessors(cfg, states, steps, m);
      VerifiedStep(cfg, states[m], steps[m], states[m + 1], j);
      assert NamesSuccessor(states[m].pending[0]);
      assert SendsVerified(states[m], steps[m], j, states[m].pending[0].u.successor.value);
    }
  }

  lemma {:induction false} VerifyingSend(states: seq<State>, steps: seq<Step>, i: nat, j: JobId) returns (m: nat, successor: CertId)
    requires VerifiedTraced(states, steps, j) && i < |states| && IsVerified(states[i].db, j)
    ensures m < i && SendsVerified(states[m], steps[m], j, successor)
  {
    if IsVerified(states[i - 1].db, j) {
      m, successor := VerifyingSend(states, steps, i - 1, j);
    } else {
      m := i - 1;
      assert SendsSomeVerified(states[m], steps[m], j);
      successor :| SendsVerified(states[m], steps[m], j, successor);
    }
  }

  /** In every run a job is verified only after the worker has seen, before the job's deadline, a
      page with a renewed certificate of what the job expects; the one that expires last is the
      successor that was stored. */
  lemma VerifiedWasRenewed(cfg: Config, states: seq<State>, steps: seq<Step>, i: nat, j: JobId)
    requires IsRun(cfg, states, steps) && i < |states| && IsVerified(states[i].db, j)
    ensures exists l: nat, m: nat, successor: CertId ::
              l < m < i && ProbeShows(states[l], steps[l], j, successor) && SendsVerified(states[m], steps[m], j, successor)
  {
    RunTracesVerified(cfg, states, steps, j);
    var m, successor := VerifyingSend(states, steps, i, j);
    RunTracesShowings(cfg, states, steps, j, successor);
    var l := ShowingOf(states, steps, m, j, successor);
    assert ProbeShows(states[l], steps[l], j, successor) && SendsVerified(states[m], steps[m], j, successor);
  }
}
