/** The lifecycle_jobs table with its timeline and the event outbox, and what each SQL
    statement of internal/store/lifecycle_jobs.go does to them. Rows are never deleted and
    ids are handed out in creation order, so a row's id is its index. */
module JobTable {
  import opened Wrappers
  import opened Backoff
  import opened WireCheck
  import opened Selection

  type JobId = nat

  datatype Kind = Renew | Migrate

  datatype Status =
    | PendingApproval | Launching | AapPending | AapRunning | AapSuccessful | Verifying
    | PendingVerify | Verified | VerifyFailed | TimedOut | Failed

  predicate Terminal(s: Status) {
    s.Verified? || s.TimedOut? || s.Failed?
  }

  predicate InFlight(s: Status) {
    s.Launching? || s.AapPending? || s.AapRunning? || s.AapSuccessful? || s.Verifying? || s.PendingVerify?
  }

  /** The stored expectation, which may fail to decode. */
  datatype Expected = Undecodable | Wire(wire: ExpectedWire)

  datatype IdemKey = IdemKey(kind: Kind, cert: CertId, fingerprint: string)

  datatype Job = Job(
    key: IdemKey, status: Status, predecessor: Option<CertId>, successor: Option<CertId>,
    aapId: Option<int>, workflow: bool, expected: Expected, observed: Option<ObservedWire>,
    failureReason: Option<string>, leaseOwner: Option<string>, leaseExpires: Option<Time>,
    nextVerify: Option<Time>, timeoutAt: Time, attempt: nat, created: Time)

  datatype TimelineType = JobEnqueued | JobLaunched | JobAapSuccessful | JobVerified | JobTimedOut | JobFailed

  datatype OutboxType = RenewalRequested | RenewalLaunched | RenewalVerified | RenewalTimedOut | RenewalFailed

  datatype JobEvent = JobEvent(job: JobId, typ: TimelineType)

  /** The table stores the certificate; the job is kept here so that events can be counted
      per job. */
  datatype OutboxEvent = OutboxEvent(job: JobId, typ: OutboxType, cert: Option<CertId>)

  datatype Db = Db(rows: seq<Job>, timeline: seq<JobEvent>, outbox: seq<OutboxEvent>)

  // ----- single-row statements -----

  datatype StatusUpdate = StatusUpdate(
    status: Option<Status>, reason: Option<string>, observed: Option<ObservedWire>,
    successor: Option<CertId>, clearLease: bool)

  const RELEASE := StatusUpdate(None, None, None, None, true)

  function Fail(reason: string): StatusUpdate {
    StatusUpdate(Some(Failed), Some(reason), None, None, true)
  }

  datatype Write =
    | UpdateStatus(id: JobId, u: StatusUpdate)
    | SetAapRef(id: JobId, aap: int, wf: bool, status: Status)
    | ScheduleNext(id: JobId, attempt: nat, next: Time)
    | LogJob(id: JobId, entry: TimelineType)
    | Emit(id: JobId, event: OutboxType, cert: Option<CertId>)

  function Coalesce<T>(given: Option<T>, stored: Option<T>): Option<T> {
    if given.Some? then given else stored
  }

  function Updated(r: Job, u: StatusUpdate): Job {
    r.(status := if u.status.Some? then u.status.value else r.status,
       failureReason := Coalesce(u.reason, r.failureReason),
       observed := Coalesce(u.observed, r.observed),
       successor := Coalesce(u.successor, r.successor),
       leaseOwner := if u.clearLease then None else r.leaseOwner,
       leaseExpires := if u.clearLease then None else r.leaseExpires)
  }

  function Referenced(r: Job, aap: int, wf: bool, status: Status): Job {
    r.(aapId := Some(aap), workflow := wf, status := status)
  }

  function Scheduled(r: Job, attempt: nat, next: Time): Job {
    r.(status := PendingVerify, attempt := attempt, nextVerify := Some(next),
       leaseOwner := None, leaseExpires := None)
  }

  /** One statement. An unknown id changes no row. */
  function Apply(db: Db, w: Write): Db {
    match w
    case UpdateStatus(id, u) =>
      if id < |db.rows| then db.(rows := db.rows[id := Updated(db.rows[id], u)]) else db
    case SetAapRef(id, aap, wf, status) =>
      if id < |db.rows| then db.(rows := db.rows[id := Referenced(db.rows[id], aap, wf, status)]) else db
    case ScheduleNext(id, attempt, next) =>
      if id < |db.rows| then db.(rows := db.rows[id := Scheduled(db.rows[id], attempt, next)]) else db
    case LogJob(id, entry) => db.(timeline := db.timeline + [JobEvent(id, entry)])
    case Emit(id, event, cert) => db.(outbox := db.outbox + [OutboxEvent(id, event, cert)])
  }

  function ApplyAll(db: Db, ws: seq<Write>): Db
    decreases |ws|
  {
    if ws == [] then db else ApplyAll(Apply(db, ws[0]), ws[1..])
  }

  /** What the worker still sends after its first statement failed: it gives up when an AAP id
      could not be stored, and otherwise goes on as if nothing had happened. */
  function AfterLoss(ws: seq<Write>): seq<Write>
    requires ws != []
  {
    if ws[0].SetAapRef? then [] else ws[1..]
  }

  /** A plan whose k-th statement fails for every k in fails; at is the number of its first. */
  function ApplySome(db: Db, ws: seq<Write>, fails: set<nat>, at: nat): Db
    decreases |ws|
  {
    if ws == [] then db
    else if at in fails then ApplySome(db, AfterLoss(ws), fails, at + 1)
    else ApplySome(Apply(db, ws[0]), ws[1..], fails, at + 1)
  }

  lemma {:induction false} ApplyAllConcat(db: Db, a: seq<Write>, b: seq<Write>)
    ensures ApplyAll(db, a + b) == ApplyAll(ApplyAll(db, a), b)
    decreases |a|
  {
    if a == [] {
      assert a + b == b;
    } else {
      assert (a + b)[1..] == a[1..] + b;
      ApplyAllConcat(Apply(db, a[0]), a[1..], b);
    }
  }

  lemma ApplyFew(db: Db, a: Write, b: Write, c: Write, d: Write)
    ensures ApplyAll(db, [a]) == Apply(db, a)
    ensures ApplyAll(db, [a, b]) == Apply(Apply(db, a), b)
    ensures ApplyAll(db, [a, b, c]) == Apply(Apply(Apply(db, a), b), c)
    ensures ApplyAll(db, [a, b, c, d]) == Apply(Apply(Apply(Apply(db, a), b), c), d)
  {
    ApplyAllConcat(db, [a], [b]);
    assert [a] + [b] == [a, b];
    ApplyAllConcat(db, [a, b], [c]);
    assert [a, b] + [c] == [a, b, c];
    ApplyAllConcat(db, [a, b, c], [d]);
    assert [a, b, c] + [d] == [a, b, c, d];
  }

  // ----- inserts -----

  datatype NewJob =
    | RenewPending(cert: CertId, fingerprint: string, expected: Expected)
    | RenewLaunched(cert: CertId, fingerprint: string, expected: Expected, aap: int, wf: bool)
    | MigrateLaunched(cert: CertId, fingerprint: string, expected: Expected, aap: int, wf: bool,
                      timeout: int, next: Time)
    | MigratePending(cert: CertId, fingerprint: string, expected: Expected, timeout: int, next: Time)

  function KeyOf(n: NewJob): IdemKey {
    IdemKey(if n.RenewPending? || n.RenewLaunched? then Renew else Migrate, n.cert, n.fingerprint)
  }

  function WindowOf(n: NewJob): (w: int)
    ensures w > 0
  {
    if (n.MigrateLaunched? || n.MigratePending?) && n.timeout > 0 then n.timeout else DAY
  }

  function RowOf(n: NewJob, now: Time): Job {
    var launched := n.RenewLaunched? || n.MigrateLaunched?;
    var migrate := n.MigrateLaunched? || n.MigratePending?;
    Job(KeyOf(n),
        if migrate then PendingVerify else if launched then AapPending else Launching,
        Some(n.cert), None,
        if launched then Some(n.aap) else None, launched && n.wf,
        n.expected, None, None, None, None,
        if !migrate then None else if n.next == ZERO_TIME then Some(now + 10 * SECOND) else Some(n.next),
        now + WindowOf(n), 0, now)
  }

  function TimelineOf(n: NewJob, id: JobId): seq<JobEvent> {
    [JobEvent(id, if n.RenewLaunched? || n.MigrateLaunched? then JobLaunched else JobEnqueued)]
  }

  function OutboxOf(n: NewJob, id: JobId): seq<OutboxEvent> {
    (if n.RenewLaunched? then [] else [OutboxEvent(id, RenewalRequested, Some(n.cert))])
    + (if n.RenewLaunched? || n.MigrateLaunched? then [OutboxEvent(id, RenewalLaunched, Some(n.cert))] else [])
  }

  /** The row with the given key among the first n rows. */
  function FindKey(rows: seq<Job>, key: IdemKey, n: nat): (r: Option<JobId>)
    requires n <= |rows|
    ensures r.Some? ==> r.value < n && rows[r.value].key == key
    ensures r.None? ==> forall i :: 0 <= i < n ==> rows[i].key != key
  {
    if n == 0 then None
    else
      var r := FindKey(rows, key, n - 1);
      if r.Some? then r else if rows[n - 1].key == key then Some(n - 1) else None
  }

  /** Insert under the unique idempotency key: a second row with the key is refused. */
  function Insert(db: Db, n: NewJob, now: Time): Db {
    if FindKey(db.rows, KeyOf(n), |db.rows|).Some? then db
    else
      var id := |db.rows|;
      Db(db.rows + [RowOf(n, now)], db.timeline + TimelineOf(n, id), db.outbox + OutboxOf(n, id))
  }

  // ----- the API claim handler -----

  /** How far a claim handler has come. Writing: its SELECT found the row without an id; wf is
      what it read. Recorded: its UPDATE has been stored. Announcing: the event is all that is
      left. */
  datatype Phase =
    | Looked
    | Writing(id: JobId, wf: bool)
    | Recorded(id: JobId)
    | Announcing(id: JobId, cert: Option<CertId>)
    | Over

  /** One call of handleClaimLifecycleJob; first: its look at the job, before the claim proper,
      found it without an id. */
  datatype Call = Call(key: IdemKey, aap: int, first: bool, phase: Phase)

  /** The statements of the handler after its look; GiveUp stands for any of them failing and
      for a crash of the API process. */
  datatype Move = SelectRow | UpdateRow | ReadBack | Announce | GiveUp

  /** The job exists and has no id. */
  predicate Unclaimed(db: Db, key: IdemKey) {
    var f := FindKey(db.rows, key, |db.rows|);
    f.Some? && db.rows[f.value].aapId.None?
  }

  /** The look, which may fail; the handler goes on all the same. */
  function Look(db: Db, key: IdemKey, aap: int, ok: bool): Call {
    Call(key, aap, ok && Unclaimed(db, key), Looked)
  }

  predicate CanMove(c: Call, m: Move) {
    match m
    case SelectRow => c.phase.Looked?
    case UpdateRow => c.phase.Writing?
    case ReadBack => c.phase.Recorded?
    case Announce => c.phase.Announcing?
    case GiveUp => true
  }

  /** What is left to do for an accepted claim. */
  function Accepted(c: Call, id: JobId, cert: Option<CertId>): Call {
    c.(phase := if c.first then Announcing(id, cert) else Over)
  }

  /** The SELECT of ClaimByIdempotency: not found and a different id end the call, the same id is
      accepted as it stands. */
  function Selected(db: Db, c: Call): Call {
    match FindKey(db.rows, c.key, |db.rows|)
    case None => c.(phase := Over)
    case Some(id) =>
      var r := db.rows[id];
      if r.aapId.None? then c.(phase := Writing(id, r.workflow))
      else if r.aapId.value == c.aap then Accepted(c, id, r.predecessor)
      else c.(phase := Over)
  }

  function CallAfter(db: Db, c: Call, m: Move): Call
    requires CanMove(c, m)
  {
    match m
    case SelectRow => Selected(db, c)
    case UpdateRow => c.(phase := Recorded(c.phase.id))
    case ReadBack => Accepted(c, c.phase.id, if c.phase.id < |db.rows| then db.rows[c.phase.id].predecessor else None)
    case Announce => c.(phase := Over)
    case GiveUp => c.(phase := Over)
  }

  /** The UPDATE asks for the id of the row only, whatever has happened since the SELECT. */
  function DbAfter(db: Db, c: Call, m: Move): Db
    requires CanMove(c, m)
  {
    match m
    case UpdateRow => Apply(db, SetAapRef(c.phase.id, c.aap, c.phase.wf, AapPending))
    case Announce => Apply(db, Emit(c.phase.id, RenewalLaunched, c.phase.cert))
    case _ => db
  }

  /** The UPDATE lands on a job that has ended, and revives it. */
  predicate Revives(db: Db, c: Call) {
    c.phase.Writing? && c.phase.id < |db.rows| && Terminal(db.rows[c.phase.id].status)
  }

  /** The statements after the look with nobody in between and none of them failing. */
  function ClaimAlone(db: Db, c: Call): Db
    requires c.phase.Looked?
  {
    var c1 := Selected(db, c);
    if c1.phase.Writing? then
      var db1 := DbAfter(db, c1, UpdateRow);
      var c2 := CallAfter(db1, CallAfter(db, c1, UpdateRow), ReadBack);
      if c2.phase.Announcing? then DbAfter(db1, c2, Announce) else db1
    else if c1.phase.Announcing? then DbAfter(db, c1, Announce)
    else db
  }

  /** The certificate column once a certificate is deleted. */
  function Unlinked(c: Option<CertId>, cert: CertId): Option<CertId> {
    if c == Some(cert) then None else c
  }

  /** Deleting a certificate nulls the references to it. */
  function DropCertificate(db: Db, cert: CertId): Db {
    db.(rows := seq(|db.rows|, i requires 0 <= i < |db.rows| =>
      db.rows[i].(predecessor := Unlinked(db.rows[i].predecessor, cert),
                  successor := Unlinked(db.rows[i].successor, cert))))
  }

  // ----- claims -----

  predicate LeaseFree(r: Job, now: Time) {
    r.leaseExpires.None? || r.leaseExpires.value < now
  }

  predicate Claimable(r: Job, now: Time) {
    InFlight(r.status) && LeaseFree(r, now)
  }

  /** ClaimLifecycleJobs: the oldest claimable rows of rows[..n], at most limit of them. */
  function ClaimIds(rows: seq<Job>, now: Time, limit: nat, n: nat): seq<JobId>
    requires n <= |rows|
  {
    FirstMatching(rows, (r: Job) => Claimable(r, now), limit, n)
  }

  predicate Due(r: Job, now: Time) {
    r.status.PendingVerify? && r.nextVerify.Some? && r.nextVerify.value <= now
    && r.timeoutAt > now && LeaseFree(r, now)
  }

  /** The due row of rows[..n] outside the chosen ones whose probe is most overdue. */
  function MostOverdue(rows: seq<Job>, now: Time, chosen: seq<JobId>, n: nat): (b: Option<JobId>)
    requires n <= |rows|
    ensures b.Some? ==> b.value < n && b.value !in chosen && Due(rows[b.value], now)
  {
    if n == 0 then None
    else
      var b := MostOverdue(rows, now, chosen, n - 1);
      if !Due(rows[n - 1], now) || n - 1 in chosen then b
      else if b.None? || rows[n - 1].nextVerify.value < rows[b.value].nextVerify.value then Some(n - 1)
      else b
  }

  /** ClaimDueVerifyJobs: due rows by next_verify_at, at most limit of them. */
  function DueIds(rows: seq<Job>, now: Time, limit: nat): seq<JobId> {
    if limit == 0 then []
    else
      var ids := DueIds(rows, now, limit - 1);
      match MostOverdue(rows, now, ids, |rows|)
      case None => ids
      case Some(id) => ids + [id]
  }

  function LeaseRows(rows: seq<Job>, ids: seq<JobId>, owner: string, expires: Time): (r: seq<Job>)
    ensures |r| == |rows|
  {
    seq(|rows|, i requires 0 <= i < |rows| =>
      if i in ids then rows[i].(leaseOwner := Some(owner), leaseExpires := Some(expires)) else rows[i])
  }

  // ----- the timeout sweep -----

  predicate Overdue(r: Job, now: Time) {
    r.status.PendingVerify? && r.timeoutAt <= now
  }

  function ExpiredIds(rows: seq<Job>, now: Time, n: nat): seq<JobId>
    requires n <= |rows|
  {
    if n == 0 then []
    else ExpiredIds(rows, now, n - 1) + if Overdue(rows[n - 1], now) then [n - 1] else []
  }

  function Expire(r: Job): Job {
    r.(status := TimedOut, leaseOwner := None, leaseExpires := None,
       failureReason := if r.failureReason.Some? then r.failureReason else Some("verify timeout"))
  }

  function ExpireRows(rows: seq<Job>, now: Time): (r: seq<Job>)
    ensures |r| == |rows|
  {
    seq(|rows|, i requires 0 <= i < |rows| => if Overdue(rows[i], now) then Expire(rows[i]) else rows[i])
  }

  // ----- what the selections mean -----

  ghost predicate Distinct(ids: seq<JobId>) {
    forall i, j :: 0 <= i < j < |ids| ==> ids[i] != ids[j]
  }

  lemma ClaimIdsMeaning(rows: seq<Job>, now: Time, limit: nat, n: nat)
    requires n <= |rows|
    ensures var ids := ClaimIds(rows, now, limit, n);
            && |ids| <= limit && Increasing(ids)
            && (forall k :: 0 <= k < |ids| ==> ids[k] < n && Claimable(rows[ids[k]], now))
  {
    FirstMatchingMeaning(rows, (r: Job) => Claimable(r, now), limit, n);
  }

  lemma {:induction false} MostOverdueMeaning(rows: seq<Job>, now: Time, chosen: seq<JobId>, n: nat)
    requires n <= |rows|
    ensures var b := MostOverdue(rows, now, chosen, n);
            forall i :: 0 <= i < n && Due(rows[i], now) && i !in chosen ==>
              b.Some? && rows[b.value].nextVerify.value <= rows[i].nextVerify.value
  {
    if n > 0 {
      MostOverdueMeaning(rows, now, chosen, n - 1);
    }
  }

  /** The ids are due rows in probe order. */
  ghost predicate DueInOrder(rows: seq<Job>, now: Time, ids: seq<JobId>) {
    (forall k :: 0 <= k < |ids| ==> ids[k] < |rows| && Due(rows[ids[k]], now))
    && Distinct(ids)
    && forall i, k :: 0 <= i < k < |ids| ==>
         rows[ids[i]].nextVerify.value <= rows[ids[k]].nextVerify.value
  }

  /** A due row is left out only when the batch is full and every chosen probe is at least
      as overdue. */
  ghost predicate NoneSkipped(rows: seq<Job>, now: Time, limit: nat, ids: seq<JobId>)
    requires DueInOrder(rows, now, ids)
  {
    forall id :: 0 <= id < |rows| && Due(rows[id], now) && id !in ids ==>
      |ids| == limit
      && forall k :: 0 <= k < |ids| ==> rows[ids[k]].nextVerify.value <= rows[id].nextVerify.value
  }

  lemma {:induction false} DueIdsMeaning(rows: seq<Job>, now: Time, limit: nat)
    ensures |DueIds(rows, now, limit)| <= limit
    ensures DueInOrder(rows, now, DueIds(rows, now, limit))
    ensures NoneSkipped(rows, now, limit, DueIds(rows, now, limit))
  {
    if limit > 0 {
      DueIdsMeaning(rows, now, limit - 1);
      var ids := DueIds(rows, now, limit - 1);
      MostOverdueMeaning(rows, now, ids, |rows|);
      var b := MostOverdue(rows, now, ids, |rows|);
      if b.Some? {
        OneMoreDue(rows, now, limit, ids, b.value);
      }
    }
  }

  lemma OneMoreDue(rows: seq<Job>, now: Time, limit: nat, ids: seq<JobId>, b: JobId)
    requires limit > 0 && |ids| <= limit - 1 && DueInOrder(rows, now, ids) && NoneSkipped(rows, now, limit - 1, ids)
    requires b < |rows| && Due(rows[b], now) && b !in ids
    requires forall i :: 0 <= i < |rows| && Due(rows[i], now) && i !in ids ==> rows[b].nextVerify.value <= rows[i].nextVerify.value
    ensures |ids + [b]| <= limit && DueInOrder(rows, now, ids + [b]) && NoneSkipped(rows, now, limit, ids + [b])
  {
    var more := ids + [b];
    assert |ids| == limit - 1;
    assert DueInOrder(rows, now, more);
    forall id | 0 <= id < |rows| && Due(rows[id], now) && id !in more
      ensures forall k :: 0 <= k < |more| ==> rows[more[k]].nextVerify.value <= rows[id].nextVerify.value
    {
      assert id !in ids && id != b;
    }
  }

  lemma DueIdsAreDue(rows: seq<Job>, now: Time, limit: nat)
    ensures var ids := DueIds(rows, now, limit);
            Distinct(ids) && forall k :: 0 <= k < |ids| ==> ids[k] < |rows| && Due(rows[ids[k]], now)
  {
    DueIdsMeaning(rows, now, limit);
  }

  lemma {:induction false} ExpiredIdsMeaning(rows: seq<Job>, now: Time, n: nat)
    requires n <= |rows|
    ensures var ids := ExpiredIds(rows, now, n);
            && Distinct(ids)
            && (forall id :: id in ids <==> 0 <= id < n && Overdue(rows[id], now))
  {
    if n > 0 {
      ExpiredIdsMeaning(rows, now, n - 1);
    }
  }

  /** The two claim queries on the whole table. */
  function ClaimBatch(rows: seq<Job>, now: Time, limit: nat): (ids: seq<JobId>)
    ensures forall k :: 0 <= k < |ids| ==> ids[k] < |rows|
  {
    ClaimIdsMeaning(rows, now, limit, |rows|);
    ClaimIds(rows, now, limit, |rows|)
  }

  function DueBatch(rows: seq<Job>, now: Time, limit: nat): (ids: seq<JobId>)
    ensures forall k :: 0 <= k < |ids| ==> ids[k] < |rows|
  {
    DueIdsAreDue(rows, now, limit);
    DueIds(rows, now, limit)
  }

  // ----- counting events -----

  function Matches(e: OutboxEvent, job: JobId, typ: OutboxType): nat {
    if e.job == job && e.typ == typ then 1 else 0
  }

  function Count(events: seq<OutboxEvent>, job: JobId, typ: OutboxType): nat {
    if events == [] then 0
    else Count(events[..|events| - 1], job, typ) + Matches(events[|events| - 1], job, typ)
  }

  lemma CountAppend(events: seq<OutboxEvent>, e: OutboxEvent, job: JobId, typ: OutboxType)
    ensures Count(events + [e], job, typ) == Count(events, job, typ) + Matches(e, job, typ)
  {
    assert (events + [e])[..|events|] == events;
  }

  /** The events of an insert: at most one of each type, about the new job. */
  function Inserted(n: NewJob, typ: OutboxType): nat {
    match typ
    case RenewalRequested => if n.RenewLaunched? then 0 else 1
    case RenewalLaunched => if n.RenewLaunched? || n.MigrateLaunched? then 1 else 0
    case _ => 0
  }

  lemma {:induction false} CountConcat(a: seq<OutboxEvent>, b: seq<OutboxEvent>, job: JobId, typ: OutboxType)
    ensures Count(a + b, job, typ) == Count(a, job, typ) + Count(b, job, typ)
    decreases |b|
  {
    if b == [] {
      assert a + b == a;
    } else {
      var n := |b| - 1;
      CountConcat(a, b[..n], job, typ);
      CountAppend(a + b[..n], b[n], job, typ);
      assert a + b == a + b[..n] + [b[n]];
    }
  }

  lemma CountMaybe(e: OutboxEvent, given: bool, job: JobId, typ: OutboxType)
    ensures Count(if given then [e] else [], job, typ) == if given then Matches(e, job, typ) else 0
  {
    assert [e][..0] == [];
  }

  lemma InsertCounts(events: seq<OutboxEvent>, n: NewJob, id: JobId, job: JobId, typ: OutboxType)
    ensures Count(events + OutboxOf(n, id), job, typ)
         == Count(events, job, typ) + if job == id then Inserted(n, typ) else 0
  {
    var req, lau := OutboxEvent(id, RenewalRequested, Some(n.cert)), OutboxEvent(id, RenewalLaunched, Some(n.cert));
    var requested := if n.RenewLaunched? then [] else [req];
    var launched := if n.RenewLaunched? || n.MigrateLaunched? then [lau] else [];
    CountConcat(events, OutboxOf(n, id), job, typ);
    CountConcat(requested, launched, job, typ);
    CountMaybe(req, !n.RenewLaunched?, job, typ);
    CountMaybe(lau, n.RenewLaunched? || n.MigrateLaunched?, job, typ);
  }

  lemma {:induction false} CountZero(events: seq<OutboxEvent>, job: JobId, typ: OutboxType)
    requires forall e :: e in events ==> e.job != job || e.typ != typ
    ensures Count(events, job, typ) == 0
  {
    if events != [] {
      CountZero(events[..|events| - 1], job, typ);
    }
  }
}
