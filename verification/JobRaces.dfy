/** The races between claim handlers, and between them and the worker, do happen: runs in which
    recorded ids are overwritten and launches logged twice or not at all. */
module JobRaces {
  import opened Wrappers
  import opened Backoff
  import opened WireCheck
  import opened JobTable
  import opened WorkerPlan
  import opened JobMachine
  import opened JobInvariants
  import opened JobTheorems
  import opened JobIds
  import opened JobLaunches

  const SUBMITTED := RenewPending(0, "fp", Undecodable)

  function KeyFound(): IdemKey {
    KeyOf(SUBMITTED)
  }

  /** The table after the job has been inserted into an empty one. */
  lemma AfterSubmit(db: Db)
    requires db == Insert(Db([], [], []), SUBMITTED, 1)
    ensures db.rows == [RowOf(SUBMITTED, 1)] && db.outbox == [OutboxEvent(0, RenewalRequested, Some(0))]
  {
    assert FindKey([], KeyFound(), 0).None?;
  }

  lemma OneKey(rows: seq<Job>)
    requires |rows| == 1 && rows[0].key == KeyFound()
    ensures FindKey(rows, KeyFound(), 1) == Some(0)
  {
    assert FindKey(rows, KeyFound(), 0).None?;
  }

  lemma StepsFive(cfg: Config, s: State, s1: State, s2: State, s3: State, s4: State, t: State,
                  a: Step, b: Step, c: Step, d: Step, e: Step)
    requires Next(cfg, s, a, s1) && Next(cfg, s1, b, s2) && Next(cfg, s2, c, s3) && Next(cfg, s3, d, s4) && Next(cfg, s4, e, t)
    ensures Leads(cfg, s, [a, b, c, d, e], t)
  {
    assert [a, b, c, d, e][1..] == [b, c, d, e];
    StepsFour(cfg, s1, s2, s3, s4, t, b, c, d, e);
  }

  // ----- two claims -----

  /** Two handlers with different ids look at a new job and SELECT it before either writes. */
  lemma TwoReads(cfg: Config) returns (steps: seq<Step>, t: State)
    ensures Init(EMPTY) && Leads(cfg, EMPTY, steps, t)
    ensures t.db.rows == [RowOf(SUBMITTED, 1)] && t.db.outbox == [OutboxEvent(0, RenewalRequested, Some(0))]
    ensures t.calls == [Claiming(1, Writing(0, false)), Claiming(2, Writing(0, false))]
    ensures t == EMPTY.(db := t.db, calls := t.calls)
  {
    var s1 := Exec(cfg, EMPTY, ApiInsert(SUBMITTED));
    AfterSubmit(s1.db);
    OneKey(s1.db.rows);
    var c1, c2 := Claiming(1, Looked), Claiming(2, Looked);
    var s2 := s1.(calls := [c1]);
    var s3 := s1.(calls := [c1, c2]);
    var s4 := s1.(calls := [c1.(phase := Writing(0, false)), c2]);
    t := s1.(calls := [c1.(phase := Writing(0, false)), c2.(phase := Writing(0, false))]);
    steps := [ApiInsert(SUBMITTED), ApiLook(KeyFound(), 1, true), ApiLook(KeyFound(), 2, true),
              ApiMove(0, SelectRow), ApiMove(1, SelectRow)];
    StepsFive(cfg, EMPTY, s1, s2, s3, s4, t, steps[0], steps[1], steps[2], steps[3], steps[4]);
  }

  function Claiming(aap: int, phase: Phase): Call {
    Call(KeyFound(), aap, true, phase)
  }

  /** Both UPDATEs succeed. */
  lemma TwoWrites(cfg: Config, s: State) returns (u: State, t: State)
    requires s.db.rows == [RowOf(SUBMITTED, 1)]
    requires s.calls == [Claiming(1, Writing(0, false)), Claiming(2, Writing(0, false))]
    ensures Next(cfg, s, ApiMove(0, UpdateRow), u) && |u.db.rows| == 1 && u.db.rows[0].aapId == Some(1)
    ensures Next(cfg, u, ApiMove(1, UpdateRow), t) && |t.db.rows| == 1 && t.db.rows[0].aapId == Some(2)
    ensures t.calls == [Claiming(1, Recorded(0)), Claiming(2, Recorded(0))]
    ensures t.db.outbox == s.db.outbox && t.db.rows[0].predecessor == Some(0)
  {
    u := Exec(cfg, s, ApiMove(0, UpdateRow));
    t := Exec(cfg, u, ApiMove(1, UpdateRow));
  }

  /** Both handlers announce. */
  lemma TwoEnds(cfg: Config, s: State) returns (steps: seq<Step>, t: State)
    requires |s.db.rows| == 1 && s.db.rows[0].predecessor == Some(0)
    requires s.calls == [Claiming(1, Recorded(0)), Claiming(2, Recorded(0))]
    ensures Leads(cfg, s, steps, t) && t.db.rows == s.db.rows && t.calls == [Claiming(1, Over), Claiming(2, Over)]
    ensures var e := OutboxEvent(0, RenewalLaunched, Some(0)); t.db.outbox == s.db.outbox + [e] + [e]
  {
    var s1 := s.(calls := [Claiming(1, Announcing(0, Some(0))), Claiming(2, Recorded(0))]);
    var s2 := s.(calls := [Claiming(1, Announcing(0, Some(0))), Claiming(2, Announcing(0, Some(0)))]);
    var s3 := Exec(cfg, s2, ApiMove(0, Announce));
    t := Exec(cfg, s3, ApiMove(1, Announce));
    steps := [ApiMove(0, ReadBack), ApiMove(1, ReadBack), ApiMove(0, Announce), ApiMove(1, Announce)];
    StepsFour(cfg, s, s1, s2, s3, t, steps[0], steps[1], steps[2], steps[3]);
  }

  /** Two claims of one job with different ids both succeed: the first id is overwritten by the
      second, and the launch is logged twice. */
  lemma TwoClaimsBothSucceed(cfg: Config) returns (s: State, first: seq<Step>, u: State, rest: seq<Step>, t: State)
    ensures Init(s) && Leads(cfg, s, first, u) && Leads(cfg, u, rest, t)
    ensures |u.db.rows| == 1 && u.db.rows[0].aapId == Some(1)
    ensures |t.db.rows| == 1 && t.db.rows[0].aapId == Some(2) && Launched(t.db, 0) == 2
    ensures t.calls == [Claiming(1, Over), Claiming(2, Over)]
  {
    s := EMPTY;
    var looks, r := TwoReads(cfg);
    var v;
    u, v := TwoWrites(cfg, r);
    assert Leads(cfg, r, [ApiMove(0, UpdateRow)], u);
    LeadsConcat(cfg, s, looks, r, [ApiMove(0, UpdateRow)], u);
    first := looks + [ApiMove(0, UpdateRow)];
    var ends;
    ends, t := TwoEnds(cfg, v);
    rest := [ApiMove(1, UpdateRow)] + ends;
    assert rest[1..] == ends;
    TwoLogged(r.db.outbox);
  }

  lemma TwoLogged(events: seq<OutboxEvent>)
    requires events == [OutboxEvent(0, RenewalRequested, Some(0))]
    ensures var e := OutboxEvent(0, RenewalLaunched, Some(0)); Count(events + [e] + [e], 0, RenewalLaunched) == 2
  {
    var e := OutboxEvent(0, RenewalLaunched, Some(0));
    CountZero(events, 0, RenewalLaunched);
    CountAppend(events, e, 0, RenewalLaunched);
    CountAppend(events + [e], e, 0, RenewalLaunched);
  }

  /** The job comes into being after a handler has looked for it. */
  lemma LooksTooEarly(cfg: Config) returns (t: State)
    ensures Leads(cfg, EMPTY, [ApiLook(KeyFound(), 1, true), ApiInsert(SUBMITTED)], t)
    ensures t.calls == [Call(KeyFound(), 1, false, Looked)] && t == EMPTY.(db := t.db, calls := t.calls)
    ensures t.db.rows == [RowOf(SUBMITTED, 1)] && t.db.outbox == [OutboxEvent(0, RenewalRequested, Some(0))]
  {
    var s1 := EMPTY.(calls := [Call(KeyFound(), 1, false, Looked)]);
    t := Exec(cfg, s1, ApiInsert(SUBMITTED));
    AfterSubmit(t.db);
    assert Next(cfg, EMPTY, ApiLook(KeyFound(), 1, true), s1);
    StepsTwo(cfg, EMPTY, s1, t, ApiLook(KeyFound(), 1, true), ApiInsert(SUBMITTED));
  }

  lemma RecordsInSilence(cfg: Config, s: State) returns (t: State)
    requires s.calls == [Call(KeyFound(), 1, false, Looked)] && s.db.rows == [RowOf(SUBMITTED, 1)]
    ensures Leads(cfg, s, [ApiMove(0, SelectRow), ApiMove(0, UpdateRow), ApiMove(0, ReadBack)], t)
    ensures t.calls == [Call(KeyFound(), 1, false, Over)] && t == s.(db := t.db, calls := t.calls)
    ensures HasId(t.db, 0) && t.db.outbox == s.db.outbox
  {
    var c := s.calls[0];
    OneKey(s.db.rows);
    var s1 := s.(calls := [c.(phase := Writing(0, false))]);
    var s2 := Exec(cfg, s1, ApiMove(0, UpdateRow));
    assert s2.calls == [c.(phase := Recorded(0))];
    t := Exec(cfg, s2, ApiMove(0, ReadBack));
    StepsThree(cfg, s, s1, s2, t, ApiMove(0, SelectRow), ApiMove(0, UpdateRow), ApiMove(0, ReadBack));
  }

  lemma NothingDue(t: State, c: Call)
    requires t.calls == [c] && c.phase.Over? && t.pending == []
    ensures OnTheWay(t, 0) == 0
  {
    assert t.calls == [] + [c];
    DueAppend([], c, 0);
  }

  /** No statement fails and nobody crashes. */
  ghost predicate Faultless(steps: seq<Step>) {
    forall k :: 0 <= k < |steps| ==> !steps[k].Lost? && !steps[k].Crash? && !(steps[k].ApiMove? && steps[k].m.GiveUp?)
  }

  lemma FaultlessConcat(a: seq<Step>, b: seq<Step>)
    requires Faultless(a) && Faultless(b)
    ensures Faultless(a + b)
  {
  }

  /** A handler that looked before the job existed records an id that nobody ever announces. */
  lemma LookBeforeInsert(cfg: Config) returns (s: State, steps: seq<Step>, t: State)
    ensures Init(s) && Leads(cfg, s, steps, t)
    ensures Faultless(steps)
    ensures HasId(t.db, 0) && Launched(t.db, 0) == 0 && OnTheWay(t, 0) == 0
  {
    s := EMPTY;
    var u := LooksTooEarly(cfg);
    t := RecordsInSilence(cfg, u);
    var a, b := [ApiLook(KeyFound(), 1, true), ApiInsert(SUBMITTED)], [ApiMove(0, SelectRow), ApiMove(0, UpdateRow), ApiMove(0, ReadBack)];
    LeadsConcat(cfg, s, a, u, b, t);
    FaultlessConcat(a, b);
    steps := a + b;
    NothingDue(t, Call(KeyFound(), 1, false, Over));
    CountZero(t.db.outbox, 0, RenewalLaunched);
  }

  // ----- a claim against the worker -----

  ghost predicate WorkerOnly(steps: seq<Step>) {
    forall k :: 0 <= k < |steps| ==> steps[k].Begin? || steps[k].Send?
  }

  function Refusal(): Answer {
    Answer(0, LookupFailed, RenewFailed(""), [], PageFailed, {})
  }

  function Acceptance(aap: int): Answer {
    Answer(0, Found(true), Renewed(aap, false), [], PageFailed, {})
  }

  /** From a state in which the worker holds job j further down its batch, it gets there
      without touching the row of j. */
  lemma {:induction false} WorkerReaches(cfg: Config, s: State, k: nat) returns (steps: seq<Step>, t: State)
    requires Inv(s) && k < |s.batch|
    ensures WorkerOnly(steps) && Leads(cfg, s, steps, t) && Inv(t)
    ensures t.pending == [] && t.batch != [] && t.batch[0] == s.batch[k]
    decreases k, |s.pending|
  {
    if s.pending != [] {
      var u := Exec(cfg, s, Send);
      SendKeeps(s, u);
      var rest;
      rest, t := WorkerReaches(cfg, u, k);
      steps := [Send] + rest;
      assert steps[0] == Send && steps[1..] == rest;
    } else if k > 0 {
      var step := Begin(Refusal());
      var u := Exec(cfg, s, step);
      BeginKeeps(cfg, s, Refusal());
      assert u.batch[k - 1] == s.batch[k];
      var rest;
      rest, t := WorkerReaches(cfg, u, k - 1);
      steps := [step] + rest;
      assert steps[0] == step && steps[1..] == rest;
    } else {
      steps, t := [], s;
    }
  }

  /** A claim of a job the worker is launching can be undone by the worker: either AAP answers
      the launch with an id of its own, or that id is on its way already, and the claimed id is
      overwritten. */
  lemma CarelessClaimIsOverwritten(cfg: Config, s: State, h: nat, j: JobId, u: State) returns (steps: seq<Step>, t: State)
    requires Inv(s) && Next(cfg, s, ApiMove(h, UpdateRow), u) && s.calls[h].phase.id == j && WillLaunch(cfg, s, j)
    requires forall k :: 0 <= k < |s.pending| && Refers(s.pending[k], j) ==> s.pending[k].aap != s.calls[h].aap
    ensures j < |u.db.rows| && u.db.rows[j].aapId == Some(s.calls[h].aap)
    ensures WorkerOnly(steps) && Leads(cfg, u, steps, t)
    ensures HasId(t.db, j) && t.db.rows[j].aapId != u.db.rows[j].aapId
  {
    var aap := s.calls[h].aap;
    StepKeeps(cfg, s, ApiMove(h, UpdateRow), u);
    assert CallOk(s.db, s.calls[h]);
    WritersDecide(cfg, s, ApiMove(h, UpdateRow), u, j);
    if k :| 0 <= k < |s.pending| && Refers(s.pending[k], j) {
      steps, t := PendingReferenceArrives(cfg, u, k);
    } else {
      var k :| 0 <= k < |s.batch| && LaunchesFrom(cfg, s.batch[k], j);
      steps, t := WorkerLaunches(cfg, u, k, j, aap + 1);
    }
  }

  lemma {:induction false} PendingReferenceArrives(cfg: Config, s: State, k: nat) returns (steps: seq<Step>, t: State)
    requires Inv(s) && k < |s.pending| && s.pending[k].SetAapRef?
    ensures WorkerOnly(steps) && Leads(cfg, s, steps, t)
    ensures s.pending[k].id < |t.db.rows| && t.db.rows[s.pending[k].id].aapId == Some(s.pending[k].aap)
    decreases k
  {
    var u := AfterSend(s);
    SendKeeps(s, u);
    if k == 0 {
      steps, t := [Send], u;
      assert steps[1..] == [];
    } else {
      var rest;
      rest, t := PendingReferenceArrives(cfg, u, k - 1);
      steps := [Send] + rest;
      assert steps[1..] == rest;
    }
  }

  /** The worker can go on to launch any job its batch holds for launching. */
  lemma WorkerLaunches(cfg: Config, u: State, k: nat, j: JobId, aap: int) returns (steps: seq<Step>, t: State)
    requires Inv(u) && k < |u.batch| && LaunchesFrom(cfg, u.batch[k], j)
    ensures WorkerOnly(steps) && Leads(cfg, u, steps, t)
    ensures j < |t.db.rows| && t.db.rows[j].aapId == Some(aap)
  {
    var first, v := WorkerReaches(cfg, u, k);
    assert ClaimedOk(v, v.batch[0]);
    t := HeadLaunches(cfg, v, j, aap);
    var last := [Begin(Acceptance(aap)), Send];
    LeadsConcat(cfg, u, first, v, last, t);
    steps := first + last;
  }

  /** What the worker sends behind the id of a launch. */
  function AfterRef(j: JobId, cert: Option<CertId>): seq<Write> {
    [LogJob(j, JobLaunched), Emit(j, RenewalLaunched, cert), UpdateStatus(j, RELEASE)]
  }

  lemma HeadLaunches(cfg: Config, v: State, j: JobId, aap: int) returns (t: State)
    requires v.pending == [] && v.batch != [] && LaunchesFrom(cfg, v.batch[0], j)
    requires j < |v.db.rows| && v.batch[0].snap.aapId.None?
    ensures Leads(cfg, v, [Begin(Acceptance(aap)), Send], t)
    ensures |t.db.rows| == |v.db.rows| && t.db.rows[j].aapId == Some(aap) && t.db.outbox == v.db.outbox
    ensures t.pending == AfterRef(j, v.batch[0].snap.predecessor)
  {
    var c := v.batch[0];
    var ans := Acceptance(aap);
    var w := Exec(cfg, v, Begin(ans));
    PlanLaunches(cfg, c, ans, v.now, v.tickNow);
    assert w.pending == LaunchWrites(j, aap, false, c.snap.predecessor);
    t := RefSent(cfg, w, j, aap, c.snap.predecessor);
    StepsTwo(cfg, v, w, t, Begin(ans), Send);
  }

  /** A handler looks at the job of its key and SELECTs it, undisturbed. */
  lemma ClaimBegins(cfg: Config, s: State, key: IdemKey, aap: int, j: JobId) returns (t: State)
    requires FindKey(s.db.rows, key, |s.db.rows|) == Some(j) && s.db.rows[j].aapId.None?
    ensures Leads(cfg, s, [ApiLook(key, aap, true), ApiMove(|s.calls|, SelectRow)], t)
    ensures t == s.(calls := s.calls + [Call(key, aap, true, Writing(j, s.db.rows[j].workflow))])
  {
    var s1 := s.(calls := s.calls + [Call(key, aap, true, Looked)]);
    t := s.(calls := s.calls + [Call(key, aap, true, Writing(j, s.db.rows[j].workflow))]);
    StepsTwo(cfg, s, s1, t, ApiLook(key, aap, true), ApiMove(|s.calls|, SelectRow));
  }

  /** And goes on to record its id and announce it. */
  lemma ClaimEnds(cfg: Config, s: State, h: nat, j: JobId) returns (t: State)
    requires h < |s.calls| && s.calls[h].phase.Writing? && s.calls[h].phase.id == j && s.calls[h].first
    requires j < |s.db.rows| && !Terminal(s.db.rows[j].status)
    ensures Leads(cfg, s, [ApiMove(h, UpdateRow), ApiMove(h, ReadBack), ApiMove(h, Announce)], t)
    ensures t == s.(db := t.db, calls := t.calls)
    ensures |t.db.rows| == |s.db.rows| && t.db.rows[j].aapId == Some(s.calls[h].aap)
    ensures Launched(t.db, j) == Launched(s.db, j) + 1
  {
    var s1 := Exec(cfg, s, ApiMove(h, UpdateRow));
    var s2 := Exec(cfg, s1, ApiMove(h, ReadBack));
    t := Exec(cfg, s2, ApiMove(h, Announce));
    StepsThree(cfg, s, s1, s2, t, ApiMove(h, UpdateRow), ApiMove(h, ReadBack), ApiMove(h, Announce));
    LaunchedUnderWrite(s2.db, Emit(j, RenewalLaunched, s2.calls[h].phase.cert), j);
  }

  lemma ClaimGoesThrough(cfg: Config, s: State, key: IdemKey, aap: int, j: JobId) returns (steps: seq<Step>, t: State)
    requires FindKey(s.db.rows, key, |s.db.rows|) == Some(j) && s.db.rows[j].aapId.None? && !Terminal(s.db.rows[j].status)
    ensures Leads(cfg, s, steps, t) && t == s.(db := t.db, calls := t.calls)
    ensures |t.db.rows| == |s.db.rows| && t.db.rows[j].aapId == Some(aap)
    ensures Launched(t.db, j) == Launched(s.db, j) + 1
  {
    var h := |s.calls|;
    var u := ClaimBegins(cfg, s, key, aap, j);
    t := ClaimEnds(cfg, u, h, j);
    var first := [ApiLook(key, aap, true), ApiMove(h, SelectRow)];
    var rest := [ApiMove(h, UpdateRow), ApiMove(h, ReadBack), ApiMove(h, Announce)];
    LeadsConcat(cfg, s, first, u, rest, t);
    steps := first + rest;
  }

  lemma RefSent(cfg: Config, s: State, j: JobId, aap: int, cert: Option<CertId>) returns (t: State)
    requires s.pending == LaunchWrites(j, aap, false, cert) && j < |s.db.rows|
    ensures Next(cfg, s, Send, t) && t.pending == AfterRef(j, cert)
    ensures |t.db.rows| == |s.db.rows| && t.db.rows[j].aapId == Some(aap) && t.db.outbox == s.db.outbox
  {
    t := AfterSend(s);
  }

  lemma LaunchIsLogged(cfg: Config, s: State, j: JobId, cert: Option<CertId>) returns (t: State)
    requires s.pending == AfterRef(j, cert)
    ensures Leads(cfg, s, [Send, Send], t) && t.db.rows == s.db.rows
    ensures t.db.outbox == s.db.outbox + [OutboxEvent(j, RenewalLaunched, cert)]
  {
    var u := AfterSend(s);
    assert u.pending == [Emit(j, RenewalLaunched, cert), UpdateStatus(j, RELEASE)];
    t := AfterSend(u);
    StepsTwo(cfg, s, u, t, Send, Send);
  }

  /** A job claimed while the worker is about to launch it: the claim goes through and is
      logged, the launch goes through and is logged, and the claimed id is gone. */
  lemma CarelessClaimLogsTwice(cfg: Config, s: State, key: IdemKey, aap: int, other: int, j: JobId) returns (steps: seq<Step>, t: State)
    requires Inv(s) && FindKey(s.db.rows, key, |s.db.rows|) == Some(j) && s.db.rows[j].aapId.None?
    requires s.pending == [] && s.batch != [] && LaunchesFrom(cfg, s.batch[0], j)
    ensures Leads(cfg, s, steps, t)
    ensures Launched(t.db, j) == Launched(s.db, j) + 2 && j < |t.db.rows| && t.db.rows[j].aapId == Some(other)
  {
    assert ClaimedOk(s, s.batch[0]);
    var claim, u := ClaimGoesThrough(cfg, s, key, aap, j);
    var v := HeadLaunches(cfg, u, j, other);
    t := LaunchIsLogged(cfg, v, j, u.batch[0].snap.predecessor);
    CountAppend(v.db.outbox, OutboxEvent(j, RenewalLaunched, u.batch[0].snap.predecessor), j, RenewalLaunched);
    LeadsConcat(cfg, s, claim, u, [Begin(Acceptance(other)), Send], v);
    LeadsConcat(cfg, s, claim + [Begin(Acceptance(other)), Send], v, [Send, Send], t);
    steps := claim + [Begin(Acceptance(other)), Send] + [Send, Send];
  }

  /** If the id of an accepted launch cannot be stored the launch is forgotten, and the job will
      be launched again. */
  lemma LostReferenceForgetsLaunch(cfg: Config, s: State, aap: int) returns (t: State)
    requires s.pending == [] && s.batch != [] && LaunchesFrom(cfg, s.batch[0], s.batch[0].id)
    requires s.batch[0].snap.aapId.None?
    ensures Leads(cfg, s, [Begin(Acceptance(aap)), Lost], t)
    ensures t.db == s.db && t.pending == [] && t.renews == s.renews + [RenewCall(s.batch[0].id, true)]
  {
    var ans := Acceptance(aap);
    var u := Exec(cfg, s, Begin(ans));
    PlanLaunches(cfg, s.batch[0], ans, s.now, s.tickNow);
    t := AfterLost(u);
    StepsTwo(cfg, s, u, t, Begin(ans), Lost);
  }
}
