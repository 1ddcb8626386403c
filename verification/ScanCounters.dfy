/** The counters of one scan under every interleaving of its probe goroutines
    (internal/scanrunner/runner.go, internal/store/diagnostics.go). */
module ScanCounters {
  import opened Sorting

  const MAX_SAMPLES: nat := 50

  datatype Kind = ProbeKind | UpsertKind

  datatype Sample = Sample(target: nat, kind: Kind)

  datatype Counters = Counters(scanned: nat, succeeded: nat, failed: nat, certsFound: nat,
                               upsertFailures: nat, samples: seq<Sample>)

  const ZERO := Counters(0, 0, 0, 0, 0, [])

  function AddSample(samples: seq<Sample>, x: Sample): seq<Sample> {
    if |samples| >= MAX_SAMPLES then samples else samples + [x]
  }

  function ProbeRecorded(c: Counters, target: nat, ok: bool): Counters {
    if ok then c.(succeeded := c.succeeded + 1)
    else c.(failed := c.failed + 1, samples := AddSample(c.samples, Sample(target, ProbeKind)))
  }

  function UpsertRecorded(c: Counters, target: nat, ok: bool): Counters {
    if ok then c.(certsFound := c.certsFound + 1)
    else c.(upsertFailures := c.upsertFailures + 1, samples := AddSample(c.samples, Sample(target, UpsertKind)))
  }

  /** The statistics object behind the mutex. */
  class ScanStats {
    var scanned: nat
    var succeeded: nat
    var failed: nat
    var certsFound: nat
    var upsertFailures: nat
    var samples: seq<Sample>

    constructor ()
      ensures Contents() == ZERO
    {
      scanned, succeeded, failed, certsFound, upsertFailures, samples := 0, 0, 0, 0, 0, [];
    }

    function Contents(): Counters
      reads this
    {
      Counters(scanned, succeeded, failed, certsFound, upsertFailures, samples)
    }

    method RecordProbeFailure(target: nat)
      modifies this
      ensures Contents() == ProbeRecorded(old(Contents()), target, false)
    {
      failed := failed + 1;
      KeepSample(Sample(target, ProbeKind));
    }

    method RecordProbeSuccess(target: nat)
      modifies this`succeeded
      ensures Contents() == ProbeRecorded(old(Contents()), target, true)
    {
      succeeded := succeeded + 1;
    }

    method RecordUpsertFailure(target: nat)
      modifies this
      ensures Contents() == UpsertRecorded(old(Contents()), target, false)
    {
      upsertFailures := upsertFailures + 1;
      KeepSample(Sample(target, UpsertKind));
    }

    method RecordCertFound(target: nat)
      modifies this`certsFound
      ensures Contents() == UpsertRecorded(old(Contents()), target, true)
    {
      certsFound := certsFound + 1;
    }

    method KeepSample(x: Sample)
      modifies this`samples
      ensures samples == AddSample(old(samples), x)
    {
      if |samples| >= MAX_SAMPLES {
        return;
      }
      samples := samples + [x];
    }
  }

  // ----- the goroutines -----

  /** How far the goroutine of a target has come: holding a slot from Probing to the last
      record, finished in Done. */
  datatype Outcome = ProbeFailed | UpsertFailed | Found

  datatype Phase = Waiting | Probing | Scanned | Probed | Recorded(outcome: Outcome) | Done(outcome: Outcome)

  datatype State = State(stats: Counters, phases: seq<Phase>, spawned: nat)

  datatype Step = Spawn | CountScanned(i: nat) | RecordProbe(i: nat, ok: bool) | RecordUpsert(i: nat, ok: bool) | Finish(i: nat)

  datatype Measure = IsScanned | IsSucceeded | IsFailed | IsFound | IsUpsertFailed | IsActive | IsAnyFailure

  predicate Meets(m: Measure, p: Phase): (r: bool)
    ensures m.IsActive? ==> (r <==> !p.Waiting? && !p.Done?)
    ensures m.IsScanned? && p.Done? ==> r
  {
    match m
    case IsScanned => p.Scanned? || p.Probed? || p.Recorded? || p.Done?
    case IsSucceeded => p.Probed? || ((p.Recorded? || p.Done?) && !p.outcome.ProbeFailed?)
    case IsFailed => (p.Recorded? || p.Done?) && p.outcome.ProbeFailed?
    case IsFound => (p.Recorded? || p.Done?) && p.outcome.Found?
    case IsUpsertFailed => (p.Recorded? || p.Done?) && p.outcome.UpsertFailed?
    case IsActive => p.Probing? || p.Scanned? || p.Probed? || p.Recorded?
    case IsAnyFailure => (p.Recorded? || p.Done?) && !p.outcome.Found?
  }

  function N(phases: seq<Phase>, m: Measure): nat {
    Count(phases, (p: Phase) => Meets(m, p))
  }

  predicate Enabled(concurrency: nat, s: State, step: Step) {
    match step
    case Spawn => s.spawned < |s.phases| && N(s.phases, IsActive) < concurrency
    case CountScanned(i) => i < |s.phases| && s.phases[i].Probing?
    case RecordProbe(i, _) => i < |s.phases| && s.phases[i].Scanned?
    case RecordUpsert(i, _) => i < |s.phases| && s.phases[i].Probed?
    case Finish(i) => i < |s.phases| && s.phases[i].Recorded?
  }

  function Exec(concurrency: nat, s: State, step: Step): State
    requires Enabled(concurrency, s, step)
  {
    match step
    case Spawn => s.(phases := s.phases[s.spawned := Probing], spawned := s.spawned + 1)
    case CountScanned(i) => s.(stats := s.stats.(scanned := s.stats.scanned + 1), phases := s.phases[i := Scanned])
    case RecordProbe(i, ok) =>
      s.(stats := ProbeRecorded(s.stats, i, ok), phases := s.phases[i := if ok then Probed else Recorded(ProbeFailed)])
    case RecordUpsert(i, ok) =>
      s.(stats := UpsertRecorded(s.stats, i, ok), phases := s.phases[i := Recorded(if ok then Found else UpsertFailed)])
    case Finish(i) => s.(phases := s.phases[i := Done(s.phases[i].outcome)])
  }

  ghost predicate Init(s: State, total: nat) {
    s == State(ZERO, seq(total, _ => Waiting), 0)
  }

  ghost predicate IsRun(concurrency: nat, total: nat, states: seq<State>, steps: seq<Step>) {
    |states| == |steps| + 1 && Init(states[0], total)
    && forall i :: 0 <= i < |steps| ==>
         Enabled(concurrency, states[i], steps[i]) && states[i + 1] == Exec(concurrency, states[i], steps[i])
  }

  function ConcurrencyOf(configured: int): nat
    ensures ConcurrencyOf(configured) > 0
    ensures ConcurrencyOf(configured) == configured || (configured <= 0 && ConcurrencyOf(configured) == 50)
  {
    if configured <= 0 then 50 else configured
  }

  // ----- invariant -----

  ghost predicate Agrees(s: State) {
    && s.stats.scanned == N(s.phases, IsScanned)
    && s.stats.succeeded == N(s.phases, IsSucceeded)
    && s.stats.failed == N(s.phases, IsFailed)
    && s.stats.certsFound == N(s.phases, IsFound)
    && s.stats.upsertFailures == N(s.phases, IsUpsertFailed)
    && |s.stats.samples| == (if s.stats.failed + s.stats.upsertFailures < MAX_SAMPLES
                             then s.stats.failed + s.stats.upsertFailures else MAX_SAMPLES)
  }

  predicate Fits(x: Sample, phases: seq<Phase>) {
    && x.target < |phases|
    && Meets(IsAnyFailure, phases[x.target])
    && (x.kind.ProbeKind? <==> phases[x.target].outcome.ProbeFailed?)
  }

  ghost predicate SamplesOk(s: State) {
    && (forall k :: 0 <= k < |s.stats.samples| ==> Fits(s.stats.samples[k], s.phases))
    && (forall i, k :: 0 <= i < k < |s.stats.samples| ==> s.stats.samples[i].target != s.stats.samples[k].target)
  }

  ghost predicate Spawning(concurrency: nat, s: State) {
    && s.spawned <= |s.phases|
    && (forall i :: 0 <= i < |s.phases| ==> (s.phases[i].Waiting? <==> s.spawned <= i))
    && N(s.phases, IsActive) <= concurrency
  }

  lemma Moved(phases: seq<Phase>, i: nat, p: Phase, m: Measure)
    requires i < |phases|
    ensures N(phases[i := p], m) == N(phases, m) - (if Meets(m, phases[i]) then 1 else 0) + if Meets(m, p) then 1 else 0
  {
    CountUpdate(phases, i, p, (p: Phase) => Meets(m, p));
  }

  function Moving(s: State, step: Step): nat {
    if step.Spawn? then s.spawned else step.i
  }

  ghost predicate Shifted(s: State, t: State, i: nat)
    requires i < |s.phases| == |t.phases|
  {
    forall m: Measure :: N(t.phases, m) == N(s.phases, m) - (if Meets(m, s.phases[i]) then 1 else 0)
                                           + if Meets(m, t.phases[i]) then 1 else 0
  }

  lemma StepMoves(concurrency: nat, s: State, step: Step)
    requires Enabled(concurrency, s, step)
    ensures var t, i := Exec(concurrency, s, step), Moving(s, step);
            && i < |s.phases| == |t.phases| && t.phases == s.phases[i := t.phases[i]]
            && Shifted(s, t, i)
  {
    var t, i := Exec(concurrency, s, step), Moving(s, step);
    forall m: Measure ensures N(t.phases, m) == N(s.phases, m) - (if Meets(m, s.phases[i]) then 1 else 0)
                                                + if Meets(m, t.phases[i]) then 1 else 0
    {
      Moved(s.phases, i, t.phases[i], m);
    }
  }

  lemma StepAgrees(concurrency: nat, s: State, step: Step)
    requires Agrees(s) && Spawning(concurrency, s) && Enabled(concurrency, s, step)
    ensures Agrees(Exec(concurrency, s, step)) && Spawning(concurrency, Exec(concurrency, s, step))
  {
    StepMoves(concurrency, s, step);
  }

  lemma StepSamples(concurrency: nat, s: State, step: Step)
    requires SamplesOk(s) && Spawning(concurrency, s) && Enabled(concurrency, s, step)
    ensures SamplesOk(Exec(concurrency, s, step))
  {
    var t, i := Exec(concurrency, s, step), Moving(s, step);
    assert forall k :: 0 <= k < |s.phases| && k != i ==> t.phases[k] == s.phases[k];
  }

  lemma StepKeeps(concurrency: nat, s: State, step: Step)
    requires Agrees(s) && SamplesOk(s) && Spawning(concurrency, s) && Enabled(concurrency, s, step)
    ensures var t := Exec(concurrency, s, step);
            Agrees(t) && SamplesOk(t) && Spawning(concurrency, t) && |t.phases| == |s.phases|
  {
    StepAgrees(concurrency, s, step);
    StepSamples(concurrency, s, step);
  }

  lemma {:induction false} RunKeeps(concurrency: nat, total: nat, states: seq<State>, steps: seq<Step>, i: nat)
    requires IsRun(concurrency, total, states, steps) && i < |states|
    ensures Agrees(states[i]) && SamplesOk(states[i]) && Spawning(concurrency, states[i]) && |states[i].phases| == total
  {
    if i > 0 {
      RunKeeps(concurrency, total, states, steps, i - 1);
      StepKeeps(concurrency, states[i - 1], steps[i - 1]);
    } else {
      forall m: Measure ensures N(states[0].phases, m) == 0 {
        CountNone(states[0].phases, (p: Phase) => Meets(m, p));
      }
    }
  }

  /** At every instant of every run the probes in flight are within the concurrency, and the
      sampled failures are distinct targets that did fail that way. */
  lemma WithinConcurrency(concurrency: nat, total: nat, states: seq<State>, steps: seq<Step>, i: nat)
    requires IsRun(concurrency, total, states, steps) && i < |states|
    ensures N(states[i].phases, IsActive) <= concurrency && SamplesOk(states[i])
  {
    RunKeeps(concurrency, total, states, steps, i);
  }

  predicate AllDone(s: State) {
    forall i :: 0 <= i < |s.phases| ==> s.phases[i].Done?
  }

  /** When the wait group is empty every target was scanned once, and the counters add up. */
  lemma FinalCounters(concurrency: nat, total: nat, states: seq<State>, steps: seq<Step>)
    requires IsRun(concurrency, total, states, steps) && AllDone(states[|steps|])
    ensures var c := states[|steps|].stats;
            && c.scanned == total == c.succeeded + c.failed
            && c.succeeded == c.certsFound + c.upsertFailures
            && |c.samples| == if c.failed + c.upsertFailures < 50 then c.failed + c.upsertFailures else 50
  {
    RunKeeps(concurrency, total, states, steps, |steps|);
    var phases := states[|steps|].phases;
    CountAll(phases, (p: Phase) => Meets(IsScanned, p));
    CountSplit(phases, (p: Phase) => Meets(IsSucceeded, p), (p: Phase) => Meets(IsFailed, p), (p: Phase) => Meets(IsScanned, p));
    CountSplit(phases, (p: Phase) => Meets(IsFound, p), (p: Phase) => Meets(IsUpsertFailed, p), (p: Phase) => Meets(IsSucceeded, p));
  }

  // ----- no deadlock, and an end -----

  /** Until all targets are done some goroutine, or the spawning loop, can move. */
  lemma NeverStuck(concurrency: nat, total: nat, states: seq<State>, steps: seq<Step>, i: nat) returns (step: Step)
    requires concurrency > 0 && IsRun(concurrency, total, states, steps) && i < |states| && !AllDone(states[i])
    ensures Enabled(concurrency, states[i], step)
  {
    RunKeeps(concurrency, total, states, steps, i);
    var s := states[i];
    var k :| 0 <= k < |s.phases| && !s.phases[k].Done?;
    if a :| 0 <= a < |s.phases| && Meets(IsActive, s.phases[a]) {
      step := if s.phases[a].Probing? then CountScanned(a)
              else if s.phases[a].Scanned? then RecordProbe(a, true)
              else if s.phases[a].Probed? then RecordUpsert(a, true)
              else Finish(a);
    } else {
      CountNone(s.phases, (p: Phase) => Meets(IsActive, p));
      step := Spawn;
    }
  }

  function StepsLeft(p: Phase): nat {
    match p
    case Waiting => 5
    case Probing => 4
    case Scanned => 3
    case Probed => 2
    case Recorded(_) => 1
    case Done(_) => 0
  }

  function WorkLeft(phases: seq<Phase>): nat {
    if phases == [] then 0 else WorkLeft(phases[..|phases| - 1]) + StepsLeft(phases[|phases| - 1])
  }

  lemma {:induction false} WorkUpdate(phases: seq<Phase>, i: nat, p: Phase)
    requires i < |phases|
    ensures WorkLeft(phases[i := p]) == WorkLeft(phases) - StepsLeft(phases[i]) + StepsLeft(p)
  {
    var last := |phases| - 1;
    if i < last {
      WorkUpdate(phases[..last], i, p);
      assert phases[i := p][..last] == phases[..last][i := p];
    } else {
      assert phases[i := p][..last] == phases[..last];
    }
  }

  lemma {:induction false} WorkAtStart(phases: seq<Phase>)
    requires forall i :: 0 <= i < |phases| ==> phases[i].Waiting?
    ensures WorkLeft(phases) == 5 * |phases|
  {
    if phases != [] {
      WorkAtStart(phases[..|phases| - 1]);
    }
  }

  lemma StepCosts(concurrency: nat, s: State, step: Step)
    requires Spawning(concurrency, s) && Enabled(concurrency, s, step)
    ensures WorkLeft(Exec(concurrency, s, step).phases) < WorkLeft(s.phases)
  {
    var t, i := Exec(concurrency, s, step), Moving(s, step);
    StepMoves(concurrency, s, step);
    WorkUpdate(s.phases, i, t.phases[i]);
  }

  /** Every run ends: it has at most five steps for each target. */
  lemma {:induction false} RunsEnd(concurrency: nat, total: nat, states: seq<State>, steps: seq<Step>, i: nat)
    requires IsRun(concurrency, total, states, steps) && i < |states|
    ensures i + WorkLeft(states[i].phases) <= 5 * total
  {
    if i == 0 {
      WorkAtStart(states[0].phases);
    } else {
      RunsEnd(concurrency, total, states, steps, i - 1);
      RunKeeps(concurrency, total, states, steps, i - 1);
      StepCosts(concurrency, states[i - 1], steps[i - 1]);
    }
  }
}
