/** Which jobs a claim, a sweep and an insert take, told by the columns of the rows, in every run. */
module JobClaims {
  import opened Wrappers
  import opened Backoff
  import opened WireCheck
  import opened Selection
  import opened JobTable
  import opened WorkerPlan
  import opened JobMachine
  import opened JobInvariants
  import opened JobTheorems

  // ----- the general claim -----

  /** Not waiting for approval, and not concluded in one way or another. */
  predicate Unfinished(s: Status) {
    !s.PendingApproval? && !s.Verified? && !s.VerifyFailed? && !s.TimedOut? && !s.Failed?
  }

  /** Nobody holds the row at the given time. */
  predicate Unheld(r: Job, now: Time) {
    match r.leaseExpires
    case None => true
    case Some(expires) => expires < now
  }

  /** Of every table: unfinished rows that nobody holds are taken, oldest first, and one is left
      only when the batch is full of older ones. */
  lemma ClaimTakesUnfinished(rows: seq<Job>, now: Time, limit: nat, id: JobId)
    requires id < |rows|
    ensures var ids := ClaimBatch(rows, now, limit);
            && |ids| <= limit && Increasing(ids)
            && (id in ids ==> Unfinished(rows[id].status) && Unheld(rows[id], now))
            && (Unfinished(rows[id].status) && Unheld(rows[id], now) && id !in ids ==>
                  |ids| == limit && forall k :: 0 <= k < |ids| ==> ids[k] < id)
  {
    FirstMatchingMeaning(rows, (r: Job) => Claimable(r, now), limit, |rows|);
  }

  /** The job is among those a claim handed out. */
  predicate HandedOut(t: State, j: JobId) {
    exists k :: 0 <= k < |t.batch| && t.batch[k].id == j
  }

  /** What handing a job out does to its row. */
  function HeldBy(r: Job, owner: string, expires: Time): Job {
    r.(leaseOwner := Some(owner), leaseExpires := Some(expires))
  }

  lemma HandedOutIff(s: State, ids: seq<JobId>, owner: string, expires: Time, due: bool, t: State, j: JobId)
    requires forall k :: 0 <= k < |ids| ==> ids[k] < |s.db.rows|
    requires t == Leased(s, ids, owner, expires, due) && j < |s.db.rows|
    ensures |t.db.rows| == |s.db.rows| && |t.batch| == |ids| && forall k :: 0 <= k < |ids| ==> t.batch[k].id == ids[k]
    ensures HandedOut(t, j) <==> j in ids
    ensures t.db.rows[j] == if HandedOut(t, j) then HeldBy(s.db.rows[j], owner, expires) else s.db.rows[j]
    ensures forall k :: 0 <= k < |t.batch| && t.batch[k].id == j ==> t.batch[k] == Claimed(j, t.db.rows[j], due)
  {
    if j in ids {
      var k :| 0 <= k < |ids| && ids[k] == j;
      assert t.batch[k].id == j;
    }
  }

  /** What becomes of job j in a claim that may take it or not: it is handed out as leased, or
      left as it is. */
  ghost predicate HandedOutAsLeased(s: State, t: State, j: JobId, owner: string, expires: Time, due: bool)
    requires j < |s.db.rows|
  {
    && |t.db.rows| == |s.db.rows|
    && t.db.rows[j] == (if HandedOut(t, j) then HeldBy(s.db.rows[j], owner, expires) else s.db.rows[j])
    && (forall k :: 0 <= k < |t.batch| && t.batch[k].id == j ==> t.batch[k] == Claimed(j, t.db.rows[j], due))
  }

  /** A free job is left only when the batch is full of older ones, and no other is taken. */
  ghost predicate TakenIfFree(t: State, j: JobId, free: bool, limit: nat) {
    && (HandedOut(t, j) ==> free)
    && (free && !HandedOut(t, j) ==> |t.batch| == limit && forall k :: 0 <= k < |t.batch| ==> t.batch[k].id < j)
  }

  lemma GeneralClaimTakes(s: State, owner: string, ttl: int, limit: nat, t: State, j: JobId)
    requires t == GeneralClaim(s, owner, ttl, limit) && j < |s.db.rows|
    ensures TakenIfFree(t, j, Unfinished(s.db.rows[j].status) && Unheld(s.db.rows[j], s.now), limit)
    ensures HandedOutAsLeased(s, t, j, owner, s.now + ttl, false)
  {
    ClaimTakesUnfinished(s.db.rows, s.now, limit, j);
    HandedOutIff(s, ClaimBatch(s.db.rows, s.now, limit), owner, s.now + ttl, false, t, j);
  }

  /** In every run a general claim takes a job only if its status is none of the three outcomes
      and its lease is absent or over; and such a job it leaves only when the batch is full of
      older ones. What it takes it leases and hands out as leased, all else it leaves alone. */
  lemma ClaimTakes(cfg: Config, states: seq<State>, steps: seq<Step>, i: nat, j: JobId)
    requires IsRun(cfg, states, steps) && i < |steps| && steps[i].Claim? && j < |states[i].db.rows|
    ensures var r := states[i].db.rows[j];
            TakenIfFree(states[i + 1], j,
                        !r.status.Verified? && !r.status.TimedOut? && !r.status.Failed?
                        && (r.leaseExpires.None? || r.leaseExpires.value < states[i].now), steps[i].limit)
    ensures HandedOutAsLeased(states[i], states[i + 1], j, steps[i].owner, states[i].now + steps[i].ttl, false)
  {
    var s := states[i];
    assert RowOk(s.db.rows[j], s.now) by {
      RunKeeps(cfg, states, steps, i);
    }
    GeneralClaimTakes(s, steps[i].owner, steps[i].ttl, steps[i].limit, states[i + 1], j);
  }

  // ----- the due claim -----

  /** A job that waits for a probe whose time has come, before its deadline, and held by nobody. */
  predicate ProbeIsDue(r: Job, tickNow: Time) {
    && r.status.PendingVerify? && Unheld(r, tickNow)
    && (match r.nextVerify case None => false case Some(next) => next <= tickNow)
    && tickNow < r.timeoutAt
  }

  lemma DueAlike(r: Job, now: Time)
    ensures Due(r, now) <==> ProbeIsDue(r, now)
  {
  }

  /** A due job is left only when the batch is full of jobs at least as overdue, and no other is
      taken. */
  ghost predicate TakenIfDue(t: State, j: JobId, r: Job, due: bool, limit: nat) {
    && (HandedOut(t, j) ==> due)
    && (due && !HandedOut(t, j) ==> |t.batch| == limit && forall k :: 0 <= k < |t.batch| ==> MoreOverdue(t.batch[k].snap, r))
  }

  /** The due claim on every table. */
  lemma DueClaimTakesDue(rows: seq<Job>, now: Time, limit: nat, id: JobId)
    requires id < |rows|
    ensures var ids := DueBatch(rows, now, limit);
            && |ids| <= limit
            && (id in ids ==> ProbeIsDue(rows[id], now))
            && (ProbeIsDue(rows[id], now) && id !in ids ==>
                  |ids| == limit && forall k :: 0 <= k < |ids| ==> MoreOverdue(rows[ids[k]], rows[id]))
  {
    DueIdsMeaning(rows, now, limit);
    DueAlike(rows[id], now);
  }

  lemma DueTakes(s: State, ttl: int, limit: nat, t: State, j: JobId)
    requires t == DueClaim(s, ttl, limit) && j < |s.db.rows|
    ensures TakenIfDue(t, j, s.db.rows[j], ProbeIsDue(s.db.rows[j], s.tickNow), limit)
    ensures HandedOutAsLeased(s, t, j, "verify-worker", s.tickNow + ttl, true)
  {
    var ids := DueBatch(s.db.rows, s.tickNow, limit);
    DueClaimTakesDue(s.db.rows, s.tickNow, limit, j);
    HandedOutIff(s, ids, "verify-worker", s.tickNow + ttl, true, t, j);
    if j !in ids && ProbeIsDue(s.db.rows[j], s.tickNow) {
      forall k | 0 <= k < |t.batch| ensures MoreOverdue(t.batch[k].snap, s.db.rows[j]) {
        assert MoreOverdue(s.db.rows[ids[k]], s.db.rows[j]);
        assert t.batch[k].snap.nextVerify == s.db.rows[ids[k]].nextVerify;
      }
    }
  }

  /** In every run the due claim takes, on the time the tick started, exactly the waiting jobs
      whose probe is due, whose deadline is not, and which nobody holds, most overdue first. */
  lemma DueClaimTakes(cfg: Config, states: seq<State>, steps: seq<Step>, i: nat, j: JobId)
    requires IsRun(cfg, states, steps) && i < |steps| && steps[i].ClaimDue? && j < |states[i].db.rows|
    ensures var r, at := states[i].db.rows[j], states[i].tickNow;
            TakenIfDue(states[i + 1], j, r,
                       r.status.PendingVerify? && r.nextVerify.Some? && r.nextVerify.value <= at < r.timeoutAt
                       && (r.leaseExpires.None? || r.leaseExpires.value < at), steps[i].limit)
    ensures HandedOutAsLeased(states[i], states[i + 1], j, "verify-worker", states[i].tickNow + steps[i].ttl, true)
  {
    DueTakes(states[i], steps[i].ttl, steps[i].limit, states[i + 1], j);
  }

  predicate MoreOverdue(r: Job, than: Job) {
    r.nextVerify.Some? && than.nextVerify.Some? && r.nextVerify.value <= than.nextVerify.value
  }

  // ----- the sweep -----

  predicate DeadlinePassed(r: Job, tickNow: Time) {
    r.status.PendingVerify? && r.timeoutAt <= tickNow
  }

  /** A row the sweep has ended. */
  function Ended(r: Job): Job {
    r.(status := TimedOut, leaseOwner := None, leaseExpires := None,
       failureReason := Some(if r.failureReason.Some? then r.failureReason.value else "verify timeout"))
  }

  lemma SweptRow(rows: seq<Job>, now: Time, j: JobId)
    requires j < |rows|
    ensures |ExpireRows(rows, now)| == |rows|
    ensures ExpireRows(rows, now)[j] == if DeadlinePassed(rows[j], now) then Ended(rows[j]) else rows[j]
    ensures j in ExpiredIds(rows, now, |rows|) <==> DeadlinePassed(rows[j], now)
  {
    ExpiredIdsMeaning(rows, now, |rows|);
  }

  lemma SweptAnnouncements(s: State, j: JobId)
    requires j < |s.db.rows|
    ensures var t, late := Swept(s), DeadlinePassed(s.db.rows[j], s.tickNow);
            && (Emit(j, RenewalTimedOut, s.db.rows[j].predecessor) in t.pending <==> late)
            && (LogJob(j, JobTimedOut) in t.pending <==> late)
  {
    var ids := ExpiredIds(s.db.rows, s.tickNow, |s.db.rows|);
    ExpiredIdsMeaning(s.db.rows, s.tickNow, |s.db.rows|);
    assert forall k :: 0 <= k < |ids| ==> ids[k] in ids;
    SweptRow(s.db.rows, s.tickNow, j);
    SweepAnnounces(s.db.rows, ids, j);
  }

  /** In every run the sweep ends exactly the waiting jobs whose deadline has come by the start
      of the tick, whoever holds them, keeps a reason that was given before, and is about to
      announce exactly those. */
  lemma SweepTakes(cfg: Config, states: seq<State>, steps: seq<Step>, i: nat, j: JobId)
    requires IsRun(cfg, states, steps) && i < |steps| && steps[i].Sweep? && j < |states[i].db.rows|
    ensures var s, t, r := states[i], states[i + 1], states[i].db.rows[j];
            var late := r.status.PendingVerify? && r.timeoutAt <= s.tickNow;
            && |t.db.rows| == |s.db.rows| && t.db.rows[j] == (if late then Ended(r) else r)
            && (Emit(j, RenewalTimedOut, r.predecessor) in t.pending <==> late)
            && (LogJob(j, JobTimedOut) in t.pending <==> late)
  {
    var s := states[i];
    assert states[i + 1] == Swept(s);
    SweptRow(s.db.rows, s.tickNow, j);
    SweptAnnouncements(s, j);
  }

  lemma {:induction false} SweepAnnounces(rows: seq<Job>, ids: seq<JobId>, j: JobId)
    requires j < |rows| && forall k :: 0 <= k < |ids| ==> ids[k] < |rows|
    ensures Emit(j, RenewalTimedOut, rows[j].predecessor) in SweepPlan(rows, ids) <==> j in ids
    ensures LogJob(j, JobTimedOut) in SweepPlan(rows, ids) <==> j in ids
    decreases |ids|
  {
    if ids != [] {
      var l, e, rest := LogJob(ids[0], JobTimedOut), Emit(ids[0], RenewalTimedOut, rows[ids[0]].predecessor), SweepPlan(rows, ids[1..]);
      SweepAnnounces(rows, ids[1..], j);
      assert SweepPlan(rows, ids) == [l, e] + rest;
      assert ids == [ids[0]] + ids[1..];
      assert forall w :: w in [l, e] + rest <==> w == l || w == e || w in rest;
    }
  }

  // ----- inserts -----

  /** The job an insert is about: a renewal or a migration of a certificate at a fingerprint. */
  predicate IsAbout(r: Job, n: NewJob) {
    && r.key.cert == n.cert && r.key.fingerprint == n.fingerprint
    && r.key.kind == (match n
                      case RenewPending(_, _, _) => Renew
                      case RenewLaunched(_, _, _, _, _) => Renew
                      case MigrateLaunched(_, _, _, _, _, _, _) => Migrate
                      case MigratePending(_, _, _, _, _) => Migrate)
  }

  lemma FoundIff(rows: seq<Job>, n: NewJob)
    ensures FindKey(rows, KeyOf(n), |rows|).Some? <==> exists j :: 0 <= j < |rows| && IsAbout(rows[j], n)
  {
    var f := FindKey(rows, KeyOf(n), |rows|);
    if f.Some? {
      assert IsAbout(rows[f.value], n);
    }
    forall j | 0 <= j < |rows| ensures IsAbout(rows[j], n) <==> rows[j].key == KeyOf(n) {
    }
  }

  /** An insert is refused exactly when there is such a job already; else the new job holds what
      the caller gave, in the stage its path has reached. */
  lemma InsertRefusedIff(db: Db, n: NewJob, now: Time)
    ensures var after := Insert(db, n, now);
            if exists j :: 0 <= j < |db.rows| && IsAbout(db.rows[j], n) then after == db
            else
              && |after.rows| == |db.rows| + 1 && after.rows[..|db.rows|] == db.rows
              && IsAbout(after.rows[|db.rows|], n) && IsFresh(after.rows[|db.rows|], n, now)
  {
    FoundIff(db.rows, n);
  }

  /** What an insert logs and announces: an enqueued job is requested, a launched one launched,
      and a migration that is launched at once both. */
  lemma InsertIsLogged(db: Db, n: NewJob, now: Time)
    requires !exists j :: 0 <= j < |db.rows| && IsAbout(db.rows[j], n)
    ensures var after, id := Insert(db, n, now), |db.rows|;
            var requested, launched := OutboxEvent(id, RenewalRequested, Some(n.cert)), OutboxEvent(id, RenewalLaunched, Some(n.cert));
            match n
            case RenewPending(_, _, _) =>
              after.timeline == db.timeline + [JobEvent(id, JobEnqueued)] && after.outbox == db.outbox + [requested]
            case RenewLaunched(_, _, _, _, _) =>
              after.timeline == db.timeline + [JobEvent(id, JobLaunched)] && after.outbox == db.outbox + [launched]
            case MigrateLaunched(_, _, _, _, _, _, _) =>
              after.timeline == db.timeline + [JobEvent(id, JobLaunched)] && after.outbox == db.outbox + [requested, launched]
            case MigratePending(_, _, _, _, _) =>
              after.timeline == db.timeline + [JobEvent(id, JobEnqueued)] && after.outbox == db.outbox + [requested]
  {
    FoundIff(db.rows, n);
  }

  /** A row as inserted. Renewals get a day; a migration gets the time asked for, or a day, and
      waits for its first probe at once. */
  predicate IsFresh(r: Job, n: NewJob, now: Time) {
    && r.predecessor == Some(n.cert) && r.successor.None? && r.expected == n.expected
    && r.observed.None? && r.failureReason.None? && r.leaseOwner.None? && r.leaseExpires.None?
    && r.attempt == 0 && r.created == now
    && match n
       case RenewPending(_, _, _) =>
         r.status.Launching? && r.aapId.None? && r.nextVerify.None? && r.timeoutAt == now + DAY
       case RenewLaunched(_, _, _, aap, wf) =>
         r.status.AapPending? && r.aapId == Some(aap) && r.workflow == wf && r.nextVerify.None? && r.timeoutAt == now + DAY
       case MigrateLaunched(_, _, _, aap, wf, timeout, next) =>
         r.status.PendingVerify? && r.aapId == Some(aap) && r.workflow == wf && Times(r, now, timeout, next)
       case MigratePending(_, _, _, timeout, next) =>
         r.status.PendingVerify? && r.aapId.None? && Times(r, now, timeout, next)
  }

  predicate Times(r: Job, now: Time, timeout: int, next: Time) {
    && r.timeoutAt == now + (if timeout <= 0 then DAY else timeout)
    && r.nextVerify == Some(if next == ZERO_TIME then now + 10 * SECOND else next)
  }

  // ----- over runs: one job per key, and what never changes -----

  ghost predicate KeysDiffer(rows: seq<Job>) {
    forall i, j :: 0 <= i < j < |rows| ==> rows[i].key != rows[j].key
  }

  /** What a job is about stays, and its certificate only ever comes loose. */
  ghost predicate SameOrigin(r: Job, r': Job) {
    && r'.key == r.key && r'.expected == r.expected && r'.created == r.created && r'.timeoutAt == r.timeoutAt
    && (r'.predecessor == r.predecessor || r'.predecessor.None?)
  }

  ghost predicate OriginsKept(db: Db, db': Db) {
    |db.rows| <= |db'.rows| && forall j :: 0 <= j < |db.rows| ==> SameOrigin(db.rows[j], db'.rows[j])
  }

  lemma WriteKeepsOrigins(db: Db, w: Write)
    ensures OriginsKept(db, Apply(db, w)) && |Apply(db, w).rows| == |db.rows|
  {
  }

  lemma MoveKeepsOrigins(db: Db, c: Call, m: Move)
    requires CanMove(c, m)
    ensures OriginsKept(db, DbAfter(db, c, m)) && |DbAfter(db, c, m).rows| == |db.rows|
  {
  }

  lemma InsertKeepsKeys(db: Db, n: NewJob, now: Time)
    requires KeysDiffer(db.rows)
    ensures KeysDiffer(Insert(db, n, now).rows) && OriginsKept(db, Insert(db, n, now))
  {
    var f := FindKey(db.rows, KeyOf(n), |db.rows|);
    if f.None? {
      var rows := Insert(db, n, now).rows;
      assert rows[|db.rows|].key == KeyOf(n);
      forall i, j | 0 <= i < j < |rows| ensures rows[i].key != rows[j].key {
      }
    }
  }

  lemma SameKeysDiffer(db: Db, db': Db)
    requires KeysDiffer(db.rows) && OriginsKept(db, db') && |db'.rows| == |db.rows|
    ensures KeysDiffer(db'.rows)
  {
    forall i, j | 0 <= i < j < |db'.rows| ensures db'.rows[i].key != db'.rows[j].key {
      assert SameOrigin(db.rows[i], db'.rows[i]) && SameOrigin(db.rows[j], db'.rows[j]);
    }
  }

  lemma OthersKeepOrigins(cfg: Config, s: State, step: Step, t: State)
    requires Next(cfg, s, step, t) && !step.ApiInsert?
    ensures OriginsKept(s.db, t.db) && |t.db.rows| == |s.db.rows|
  {
    match step
    case Send => WriteKeepsOrigins(s.db, s.pending[0]);
    case ApiMove(h, m) => MoveKeepsOrigins(s.db, s.calls[h], m);
    case _ =>
  }

  lemma StepKeepsKeys(cfg: Config, s: State, step: Step, t: State)
    requires Next(cfg, s, step, t) && KeysDiffer(s.db.rows)
    ensures KeysDiffer(t.db.rows) && OriginsKept(s.db, t.db)
  {
    if step.ApiInsert? {
      InsertKeepsKeys(s.db, step.n, s.now);
    } else {
      OthersKeepOrigins(cfg, s, step, t);
      SameKeysDiffer(s.db, t.db);
    }
  }

  ghost predicate KeysKept(s: State, t: State) {
    KeysDiffer(s.db.rows) ==> KeysDiffer(t.db.rows) && OriginsKept(s.db, t.db)
  }

  lemma {:induction false} KeysAlong(states: seq<State>, i: nat, k: nat)
    requires forall m :: 0 < m < |states| ==> KeysKept(states[m - 1], states[m])
    requires i <= k < |states| && KeysDiffer(states[i].db.rows)
    ensures KeysDiffer(states[k].db.rows) && OriginsKept(states[i].db, states[k].db)
    decreases k
  {
    if i < k {
      KeysAlong(states, i, k - 1);
      assert KeysKept(states[k - 1], states[k]);
      OriginsChain(states[i].db, states[k - 1].db, states[k].db);
    }
  }

  lemma OriginsChain(a: Db, b: Db, c: Db)
    requires OriginsKept(a, b) && OriginsKept(b, c)
    ensures OriginsKept(a, c)
  {
    forall j | 0 <= j < |a.rows| ensures SameOrigin(a.rows[j], c.rows[j]) {
      assert SameOrigin(a.rows[j], b.rows[j]) && SameOrigin(b.rows[j], c.rows[j]);
    }
  }

  lemma RunKeepsKeys(cfg: Config, states: seq<State>, steps: seq<Step>)
    requires IsRun(cfg, states, steps)
    ensures forall m :: 0 < m < |states| ==> KeysKept(states[m - 1], states[m])
    ensures KeysDiffer(states[0].db.rows)
  {
    forall m | 0 < m < |states| ensures KeysKept(states[m - 1], states[m]) {
      if KeysDiffer(states[m - 1].db.rows) {
        StepKeepsKeys(cfg, states[m - 1], steps[m - 1], states[m]);
      }
    }
  }

  /** In every run there is at most one renewal and at most one migration of a certificate at a
      fingerprint. */
  lemma OneJobPerKey(cfg: Config, states: seq<State>, steps: seq<Step>, i: nat, a: JobId, b: JobId)
    requires IsRun(cfg, states, steps) && i < |states| && a < |states[i].db.rows| && b < |states[i].db.rows|
    requires var r, q := states[i].db.rows[a].key, states[i].db.rows[b].key;
             r.kind == q.kind && r.cert == q.cert && r.fingerprint == q.fingerprint
    ensures a == b
  {
    RunKeepsKeys(cfg, states, steps);
    KeysAlong(states, 0, i);
  }

  /** In every run kind, certificate, expectation, creation and deadline of a job stay as
      inserted, and the reference to its certificate can only come loose. */
  lemma OriginIsForever(cfg: Config, states: seq<State>, steps: seq<Step>, i: nat, k: nat, j: JobId)
    requires IsRun(cfg, states, steps) && i <= k < |states| && j < |states[i].db.rows|
    ensures j < |states[k].db.rows|
    ensures var r, r' := states[i].db.rows[j], states[k].db.rows[j];
            && r'.key == r.key && r'.expected == r.expected && r'.created == r.created && r'.timeoutAt == r.timeoutAt
            && (r'.predecessor == r.predecessor || r'.predecessor.None?)
  {
    RunKeepsKeys(cfg, states, steps);
    KeysAlong(states, 0, i);
    KeysAlong(states, i, k);
  }

  /** Deleting a certificate loosens exactly the references to it. */
  lemma DropLoosens(db: Db, cert: CertId, j: JobId)
    requires j < |db.rows|
    ensures var r, after := db.rows[j], DropCertificate(db, cert);
            && |after.rows| == |db.rows| && after.timeline == db.timeline && after.outbox == db.outbox
            && after.rows[j] == r.(predecessor := after.rows[j].predecessor, successor := after.rows[j].successor)
            && (if r.predecessor == Some(cert) then after.rows[j].predecessor.None? else after.rows[j].predecessor == r.predecessor)
            && (if r.successor == Some(cert) then after.rows[j].successor.None? else after.rows[j].successor == r.successor)
  {
  }
}
