/** The events table as a delivery queue: claims, marks, and runs of any number of
    dispatchers (internal/store/store.go). */
module Outbox {
  import opened Wrappers
  import opened Backoff
  import opened Selection

  type EventId = nat

  datatype Event = Event(delivered: bool, attempts: nat, leaseOwner: Option<string>,
                         leaseExpires: Option<Time>, lastError: Option<string>)

  const FRESH := Event(false, 0, None, None, None)

  predicate InPool(e: Event, cap: nat) {
    !e.delivered && e.attempts < cap
  }

  predicate Claimable(e: Event, now: Time, cap: nat) {
    InPool(e, cap) && (e.leaseExpires.None? || e.leaseExpires.value < now)
  }

  function ClaimIds(rows: seq<Event>, now: Time, cap: nat, limit: nat, n: nat): seq<EventId>
    requires n <= |rows|
  {
    FirstMatching(rows, (e: Event) => Claimable(e, now, cap), limit, n)
  }

  function ClaimBatch(rows: seq<Event>, now: Time, cap: nat, limit: nat): (ids: seq<EventId>)
    ensures Increasing(ids) && |ids| <= limit
    ensures forall k :: 0 <= k < |ids| ==> ids[k] < |rows| && Claimable(rows[ids[k]], now, cap)
  {
    FirstMatchingMeaning(rows, (e: Event) => Claimable(e, now, cap), limit, |rows|);
    ClaimIds(rows, now, cap, limit, |rows|)
  }

  function LeaseRows(rows: seq<Event>, ids: seq<EventId>, owner: string, expires: Time): (r: seq<Event>)
    ensures |r| == |rows|
  {
    seq(|rows|, i requires 0 <= i < |rows| =>
      if i in ids then rows[i].(leaseOwner := Some(owner), leaseExpires := Some(expires)) else rows[i])
  }

  function Delivered(e: Event): Event {
    e.(delivered := true, leaseOwner := None, leaseExpires := None)
  }

  function Rejected(e: Event, message: string): Event {
    e.(attempts := e.attempts + 1, lastError := Some(message), leaseOwner := None, leaseExpires := None)
  }

  /** Not delivered, with attempts left, and under no lease that still runs. */
  predicate Waiting(e: Event, now: Time, cap: nat) {
    && !e.delivered && e.attempts < cap
    && (match e.leaseExpires case None => true case Some(expires) => expires < now)
  }

  /** A claim takes only waiting events, and leaves one only when the batch is full of older ones;
      what it takes it leases. */
  lemma ClaimTakes(rows: seq<Event>, now: Time, cap: nat, limit: nat, owner: string, expires: Time, id: EventId)
    requires id < |rows|
    ensures var ids := ClaimBatch(rows, now, cap, limit);
            && (id in ids ==> Waiting(rows[id], now, cap))
            && (Waiting(rows[id], now, cap) && id !in ids ==> |ids| == limit && forall k :: 0 <= k < |ids| ==> ids[k] < id)
            && LeaseRows(rows, ids, owner, expires)[id]
               == (if id in ids then rows[id].(leaseOwner := Some(owner), leaseExpires := Some(expires)) else rows[id])
  {
    FirstMatchingMeaning(rows, (e: Event) => Claimable(e, now, cap), limit, |rows|);
  }

  // ----- runs -----

  /** The sinks a dispatcher is configured with. */
  datatype Sinks = Sinks(webhook: bool, itsm: bool)

  /** An event handed to a dispatcher until an instant, open until its mark reaches the table,
      with what the sinks have taken since. */
  datatype Grant = Grant(id: EventId, until: Time, open: bool, sinks: Sinks, eda: bool, itsm: bool)

  /** accepted and refused record the marks that reached the table, eda and itsm the events
      the sinks have received. */
  datatype State = State(rows: seq<Event>, now: Time, grants: seq<Grant>,
                         accepted: seq<EventId>, refused: seq<EventId>,
                         eda: seq<EventId>, itsm: seq<EventId>)

  datatype Step =
    | Pass(d: nat)
    | Append
    | Claim(sinks: Sinks, owner: string, ttl: int, limit: nat)
    | EdaTakes(g: nat)
    | ItsmTakes(g: nat)
    | MarkDelivered(g: nat)
    | MarkFailed(g: nat, message: string)

  predicate Live(g: Grant, now: Time) {
    g.open && now <= g.until
  }

  /** Nobody has been handed the event since. */
  predicate Latest(s: State, g: nat)
    requires g < |s.grants|
  {
    forall k :: g < k < |s.grants| ==> s.grants[k].id != s.grants[g].id
  }

  predicate IsMark(step: Step) {
    step.MarkDelivered? || step.MarkFailed?
  }

  /** A mark of the event that comes after its lease, when somebody else has claimed the event
      in the meantime. */
  predicate Overtaken(s: State, step: Step, id: EventId) {
    IsMark(step) && step.g < |s.grants| && s.grants[step.g].id == id
    && !Live(s.grants[step.g], s.now) && !Latest(s, step.g)
  }

  /** Every configured sink, and at least one, has taken the event. */
  predicate Taken(g: Grant) {
    (g.sinks.webhook || g.sinks.itsm) && (g.sinks.webhook ==> g.eda) && (g.sinks.itsm ==> g.itsm)
  }

  predicate IsGrant(s: State, g: nat) {
    g < |s.grants| && s.grants[g].open && s.grants[g].id < |s.rows|
  }

  /** A mark carries no owner guard and may come as late as it likes. */
  predicate Enabled(s: State, step: Step) {
    match step
    case EdaTakes(g) => IsGrant(s, g) && s.grants[g].sinks.webhook
    case ItsmTakes(g) => IsGrant(s, g) && s.grants[g].sinks.itsm && (s.grants[g].sinks.webhook ==> s.grants[g].eda)
    case MarkDelivered(g) => IsGrant(s, g) && Taken(s.grants[g])
    case MarkFailed(g, _) => IsGrant(s, g)
    case _ => true
  }

  function NewGrants(ids: seq<EventId>, until: Time, sinks: Sinks): seq<Grant> {
    seq(|ids|, k requires 0 <= k < |ids| => Grant(ids[k], until, true, sinks, false, false))
  }

  function HandOut(s: State, ids: seq<EventId>, owner: string, until: Time, sinks: Sinks): State {
    s.(rows := LeaseRows(s.rows, ids, owner, until), grants := s.grants + NewGrants(ids, until, sinks))
  }

  function Close(grants: seq<Grant>, g: nat): seq<Grant>
    requires g < |grants|
  {
    grants[g := grants[g].(open := false)]
  }

  function Exec(cap: nat, s: State, step: Step): State
    requires Enabled(s, step)
  {
    match step
    case Pass(d) => s.(now := s.now + d)
    case Append => s.(rows := s.rows + [FRESH])
    case Claim(sinks, owner, ttl, limit) => HandOut(s, ClaimBatch(s.rows, s.now, cap, limit), owner, s.now + ttl, sinks)
    case EdaTakes(g) =>
      s.(eda := s.eda + [s.grants[g].id], grants := s.grants[g := s.grants[g].(eda := true)])
    case ItsmTakes(g) =>
      s.(itsm := s.itsm + [s.grants[g].id], grants := s.grants[g := s.grants[g].(itsm := true)])
    case MarkDelivered(g) =>
      var id := s.grants[g].id;
      s.(rows := s.rows[id := Delivered(s.rows[id])], grants := Close(s.grants, g), accepted := s.accepted + [id])
    case MarkFailed(g, message) =>
      var id := s.grants[g].id;
      s.(rows := s.rows[id := Rejected(s.rows[id], message)], grants := Close(s.grants, g), refused := s.refused + [id])
  }

  ghost predicate Init(s: State) {
    s.rows == [] && s.grants == [] && s.accepted == [] && s.refused == [] && s.eda == [] && s.itsm == []
  }

  ghost predicate Next(cap: nat, s: State, step: Step, t: State) {
    Enabled(s, step) && t == Exec(cap, s, step)
  }

  ghost predicate IsRun(cap: nat, states: seq<State>, steps: seq<Step>) {
    |states| == |steps| + 1 && Init(states[0])
    && forall i :: 0 <= i < |steps| ==> Next(cap, states[i], steps[i], states[i + 1])
  }

  ghost predicate NoneOvertaken(s: State, step: Step) {
    IsMark(step) && step.g < |s.grants| ==> !Overtaken(s, step, s.grants[step.g].id)
  }

  /** Several steps from a state, none of them an overtaken mark, for connecting the
      dispatcher's methods to runs. */
  ghost predicate Leads(cap: nat, s: State, steps: seq<Step>, t: State)
    decreases |steps|
  {
    if steps == [] then s == t
    else Enabled(s, steps[0]) && NoneOvertaken(s, steps[0]) && Leads(cap, Exec(cap, s, steps[0]), steps[1..], t)
  }

  lemma LeadsCons(cap: nat, s: State, step: Step, rest: seq<Step>, t: State)
    requires Enabled(s, step) && NoneOvertaken(s, step) && Leads(cap, Exec(cap, s, step), rest, t)
    ensures Leads(cap, s, [step] + rest, t)
  {
    assert ([step] + rest)[1..] == rest;
  }

  lemma {:induction false} LeadsConcat(cap: nat, s: State, a: seq<Step>, t: State, b: seq<Step>, u: State)
    requires Leads(cap, s, a, t) && Leads(cap, t, b, u)
    ensures Leads(cap, s, a + b, u)
    decreases |a|
  {
    if a == [] {
      assert a + b == b;
    } else {
      assert (a + b)[0] == a[0] && (a + b)[1..] == a[1..] + b;
      LeadsConcat(cap, Exec(cap, s, a[0]), a[1..], t, b, u);
    }
  }

  /** One step, then two stretches of steps. */
  lemma LeadsOn(cap: nat, s: State, step: Step, u: State, a: seq<Step>, v: State, b: seq<Step>, t: State)
    requires Next(cap, s, step, u) && NoneOvertaken(s, step)
    requires Leads(cap, u, a, v) && Leads(cap, v, b, t)
    ensures Leads(cap, s, [step] + a + b, t)
  {
    LeadsConcat(cap, u, a, v, b, t);
    LeadsCons(cap, s, step, a + b, t);
    assert [step] + a + b == [step] + (a + b);
  }

  /** The marks of the steps from the i-th on are on time. */
  ghost predicate TimelyFrom(states: seq<State>, steps: seq<Step>, i: nat)
    requires |states| == |steps| + 1
  {
    forall m :: i <= m < |steps| ==> NoneOvertaken(states[m], steps[m])
  }

  /** Whatever leads on from the end of a run is part of a longer run, whose new marks are on
      time. */
  lemma {:induction false} RunExtends(cap: nat, states: seq<State>, steps: seq<Step>, more: seq<Step>, t: State)
    returns (longer: seq<State>)
    requires IsRun(cap, states, steps) && Leads(cap, states[|states| - 1], more, t)
    ensures IsRun(cap, longer, steps + more) && states <= longer && longer[|longer| - 1] == t
    ensures TimelyFrom(longer, steps + more, |steps|)
    decreases |more|
  {
    if more == [] {
      longer := states;
      assert steps + more == steps;
    } else {
      var u := Exec(cap, states[|states| - 1], more[0]);
      longer := RunExtends(cap, states + [u], steps + [more[0]], more[1..], t);
      assert steps + [more[0]] + more[1..] == steps + more;
      assert longer[|steps|] == states[|steps|];
    }
  }

  function Occurrences(ids: seq<EventId>, id: EventId): nat {
    if ids == [] then 0
    else Occurrences(ids[..|ids| - 1], id) + if ids[|ids| - 1] == id then 1 else 0
  }

  lemma OccurrencesAppend(ids: seq<EventId>, x: EventId, id: EventId)
    ensures Occurrences(ids + [x], id) == Occurrences(ids, id) + if x == id then 1 else 0
  {
    assert (ids + [x])[..|ids|] == ids;
  }

  // ----- what every run keeps -----

  ghost predicate RowOk(s: State, id: EventId)
    requires id < |s.rows|
  {
    && s.rows[id].attempts == Occurrences(s.refused, id)
    && (s.rows[id].delivered <==> Occurrences(s.accepted, id) >= 1)
  }

  ghost predicate Counted(s: State) {
    && (forall id: EventId :: id < |s.rows| ==> RowOk(s, id))
    && (forall id: EventId :: id >= |s.rows| ==> Occurrences(s.refused, id) == 0 && Occurrences(s.accepted, id) == 0)
  }

  /** What a grant says its sinks took, they have received. */
  ghost predicate Receipt(s: State, g: Grant) {
    g.id < |s.rows| && (g.eda ==> g.id in s.eda) && (g.itsm ==> g.id in s.itsm)
  }

  /** Some dispatcher handed the event to all of its sinks. */
  ghost predicate Vouched(s: State, id: EventId) {
    exists i :: 0 <= i < |s.grants| && s.grants[i].id == id && Taken(s.grants[i])
  }

  ghost predicate Grounded(s: State) {
    && (forall i :: 0 <= i < |s.grants| ==> Receipt(s, s.grants[i]))
    && (forall id: EventId :: id < |s.rows| && s.rows[id].delivered ==> Vouched(s, id))
  }

  ghost predicate Inv(s: State) {
    Counted(s) && Grounded(s)
  }

  lemma ClaimKeeps(s: State, ids: seq<EventId>, owner: string, until: Time, sinks: Sinks, t: State)
    requires Inv(s) && t == HandOut(s, ids, owner, until, sinks) && forall k :: 0 <= k < |ids| ==> ids[k] < |s.rows|
    ensures Inv(t)
  {
    forall id: EventId | id < |t.rows| ensures RowOk(t, id) {
      assert RowOk(s, id);
    }
    forall i | 0 <= i < |t.grants| ensures Receipt(t, t.grants[i]) {
      assert i < |s.grants| ==> t.grants[i] == s.grants[i] && Receipt(s, s.grants[i]);
    }
    forall id: EventId | id < |t.rows| && t.rows[id].delivered ensures Vouched(t, id) {
      var i :| 0 <= i < |s.grants| && s.grants[i].id == id && Taken(s.grants[i]);
      assert t.grants[i] == s.grants[i];
    }
  }

  /** What a mark adds to the counts of one event. */
  lemma MarkAdds(s: State, step: Step, t: State, cap: nat, i: EventId)
    requires Next(cap, s, step, t) && IsMark(step)
    ensures Occurrences(t.accepted, i)
            == Occurrences(s.accepted, i) + if step.MarkDelivered? && i == s.grants[step.g].id then 1 else 0
    ensures Occurrences(t.refused, i)
            == Occurrences(s.refused, i) + if step.MarkFailed? && i == s.grants[step.g].id then 1 else 0
  {
    OccurrencesAppend(s.accepted, s.grants[step.g].id, i);
    OccurrencesAppend(s.refused, s.grants[step.g].id, i);
  }

  lemma MarkCountsOne(cap: nat, s: State, step: Step, t: State, i: EventId)
    requires Next(cap, s, step, t) && IsMark(step) && i < |s.rows| && RowOk(s, i)
    ensures RowOk(t, i)
  {
    MarkAdds(s, step, t, cap, i);
  }

  lemma MarkCounts(cap: nat, s: State, step: Step, t: State)
    requires Inv(s) && Next(cap, s, step, t) && IsMark(step)
    ensures Counted(t)
  {
    forall i: EventId | i < |t.rows| ensures RowOk(t, i) {
      MarkCountsOne(cap, s, step, t, i);
    }
    forall i: EventId | i >= |t.rows| ensures Occurrences(t.refused, i) == 0 && Occurrences(t.accepted, i) == 0 {
      MarkAdds(s, step, t, cap, i);
    }
  }

  lemma MarkGrounds(cap: nat, s: State, step: Step, t: State)
    requires Inv(s) && Next(cap, s, step, t) && IsMark(step)
    ensures Grounded(t)
  {
    forall i | 0 <= i < |t.grants| ensures Receipt(t, t.grants[i]) {
      assert Receipt(s, s.grants[i]);
    }
    forall id: EventId | id < |t.rows| && t.rows[id].delivered ensures Vouched(t, id) {
      if step.MarkDelivered? && id == s.grants[step.g].id {
        assert t.grants[step.g].id == id && Taken(t.grants[step.g]);
      } else {
        var i :| 0 <= i < |s.grants| && s.grants[i].id == id && Taken(s.grants[i]);
        assert t.grants[i].id == id && Taken(t.grants[i]);
      }
    }
  }

  lemma TakeKeeps(cap: nat, s: State, step: Step, t: State)
    requires Inv(s) && Next(cap, s, step, t) && (step.EdaTakes? || step.ItsmTakes?)
    ensures Inv(t)
  {
    forall id: EventId | id < |t.rows| ensures RowOk(t, id) {
      assert RowOk(s, id);
    }
    forall i | 0 <= i < |t.grants| ensures Receipt(t, t.grants[i]) {
      assert Receipt(s, s.grants[i]);
    }
    forall id: EventId | id < |t.rows| && t.rows[id].delivered ensures Vouched(t, id) {
      var i :| 0 <= i < |s.grants| && s.grants[i].id == id && Taken(s.grants[i]);
      assert t.grants[i].id == id && Taken(t.grants[i]);
    }
  }

  lemma QuietKeeps(cap: nat, s: State, step: Step, t: State)
    requires Inv(s) && Next(cap, s, step, t) && (step.Pass? || step.Append?)
    ensures Inv(t)
  {
    forall id: EventId | id < |t.rows| ensures RowOk(t, id) {
      if id < |s.rows| {
        assert RowOk(s, id);
      }
    }
    forall i | 0 <= i < |t.grants| ensures Receipt(t, t.grants[i]) {
      assert Receipt(s, s.grants[i]);
    }
    forall id: EventId | id < |t.rows| && t.rows[id].delivered ensures Vouched(t, id) {
      var i :| 0 <= i < |s.grants| && s.grants[i].id == id && Taken(s.grants[i]);
      assert t.grants[i].id == id && Taken(t.grants[i]);
    }
  }

  lemma StepKeeps(cap: nat, s: State, step: Step, t: State)
    requires Inv(s) && Next(cap, s, step, t)
    ensures Inv(t)
  {
    if step.Claim? {
      ClaimKeeps(s, ClaimBatch(s.rows, s.now, cap, step.limit), step.owner, s.now + step.ttl, step.sinks, t);
    } else if IsMark(step) {
      MarkCounts(cap, s, step, t);
      MarkGrounds(cap, s, step, t);
    } else if step.Pass? || step.Append? {
      QuietKeeps(cap, s, step, t);
    } else {
      TakeKeeps(cap, s, step, t);
    }
  }

  lemma {:induction false} RunKeeps(cap: nat, states: seq<State>, steps: seq<Step>, i: nat)
    requires IsRun(cap, states, steps) && i < |states|
    ensures Inv(states[i])
  {
    if i > 0 {
      RunKeeps(cap, states, steps, i - 1);
      StepKeeps(cap, states[i - 1], steps[i - 1], states[i]);
    }
  }

  // ----- what a run keeps for an event whose marks are not overtaken -----

  /** The last grant, while open, still has its event: in the pool, and under its lease. */
  ghost predicate Held(cap: nat, s: State, g: nat)
    requires g < |s.grants|
  {
    s.grants[g].open && Latest(s, g) ==>
      && s.grants[g].id < |s.rows| && InPool(s.rows[s.grants[g].id], cap)
      && s.rows[s.grants[g].id].leaseExpires == Some(s.grants[g].until)
  }

  ghost predicate InOrder(cap: nat, s: State, id: EventId) {
    && (id < |s.rows| ==> s.rows[id].attempts <= cap && Occurrences(s.accepted, id) <= 1)
    && (forall g :: 0 <= g < |s.grants| && s.grants[g].id == id ==>
          Held(cap, s, g) && (Live(s.grants[g], s.now) ==> Latest(s, g)))
  }

  lemma ClaimKeepsOrder(cap: nat, s: State, ids: seq<EventId>, owner: string, until: Time, sinks: Sinks, t: State, id: EventId)
    requires InOrder(cap, s, id) && Increasing(ids) && t == HandOut(s, ids, owner, until, sinks)
    requires forall k :: 0 <= k < |ids| ==> ids[k] < |s.rows| && Claimable(s.rows[ids[k]], s.now, cap)
    ensures InOrder(cap, t, id)
  {
    forall g | 0 <= g < |t.grants| && t.grants[g].id == id
      ensures Held(cap, t, g) && (Live(t.grants[g], t.now) ==> Latest(t, g))
    {
      if g < |s.grants| {
        OldGrantInOrder(cap, s, ids, owner, until, sinks, t, g);
      } else {
        NewGrantInOrder(cap, s, ids, owner, until, sinks, t, g);
      }
    }
  }

  lemma OldGrantInOrder(cap: nat, s: State, ids: seq<EventId>, owner: string, until: Time, sinks: Sinks, t: State, g: nat)
    requires g < |s.grants| && InOrder(cap, s, s.grants[g].id) && t == HandOut(s, ids, owner, until, sinks)
    requires forall k :: 0 <= k < |ids| ==> ids[k] < |s.rows| && Claimable(s.rows[ids[k]], s.now, cap)
    ensures Held(cap, t, g) && (Live(t.grants[g], t.now) ==> Latest(t, g))
  {
    var id := s.grants[g].id;
    assert t.grants[g] == s.grants[g];
    if k :| 0 <= k < |ids| && ids[k] == id {
      assert t.grants[|s.grants| + k].id == id;
      assert !Latest(t, g);
      assert Held(cap, s, g);
    } else {
      forall k | g < k < |t.grants| && Latest(s, g) ensures t.grants[k].id != id {
        assert k < |s.grants| ==> t.grants[k] == s.grants[k];
      }
      if Latest(t, g) {
        forall k | g < k < |s.grants| ensures s.grants[k].id != id {
          assert t.grants[k] == s.grants[k];
        }
      }
    }
  }

  lemma NewGrantInOrder(cap: nat, s: State, ids: seq<EventId>, owner: string, until: Time, sinks: Sinks, t: State, g: nat)
    requires |s.grants| <= g < |s.grants| + |ids| && Increasing(ids) && t == HandOut(s, ids, owner, until, sinks)
    requires forall k :: 0 <= k < |ids| ==> ids[k] < |s.rows| && Claimable(s.rows[ids[k]], s.now, cap)
    ensures Held(cap, t, g) && Latest(t, g)
  {
    var k := g - |s.grants|;
    assert t.grants[g] == Grant(ids[k], until, true, sinks, false, false);
    assert ids[k] in ids;
    forall m | g < m < |t.grants| ensures t.grants[m].id != ids[k] {
      assert t.grants[m].id == ids[m - |s.grants|];
    }
  }

  /** Steps that leave the event and who holds it alone. */
  lemma SameKeepsOrder(cap: nat, s: State, t: State, id: EventId)
    requires InOrder(cap, s, id) && |t.grants| == |s.grants| && s.now <= t.now && |s.rows| <= |t.rows|
    requires id < |s.rows| ==> t.rows[id] == s.rows[id]
    requires |s.rows| <= id < |t.rows| ==> t.rows[id] == FRESH
    requires Occurrences(t.accepted, id) == Occurrences(s.accepted, id) && (id >= |s.rows| ==> Occurrences(s.accepted, id) == 0)
    requires forall g :: 0 <= g < |s.grants| ==>
               t.grants[g].id == s.grants[g].id && t.grants[g].until == s.grants[g].until
               && (s.grants[g].id == id ==> t.grants[g].open == s.grants[g].open)
    ensures InOrder(cap, t, id)
  {
    forall g | 0 <= g < |t.grants| && t.grants[g].id == id
      ensures Held(cap, t, g) && (Live(t.grants[g], t.now) ==> Latest(t, g))
    {
      assert Held(cap, s, g) && (Latest(s, g) <==> Latest(t, g));
    }
  }

  /** A mark of the event itself. */
  lemma MarkKeepsOrder(cap: nat, s: State, step: Step, t: State, id: EventId)
    requires Inv(s) && Next(cap, s, step, t) && IsMark(step) && s.grants[step.g].id == id
    requires InOrder(cap, s, id) && !Overtaken(s, step, id)
    ensures InOrder(cap, t, id)
  {
    assert Latest(s, step.g) && Held(cap, s, step.g);
    assert RowOk(s, id);
    MarkAdds(s, step, t, cap, id);
    forall g | 0 <= g < |t.grants| && t.grants[g].id == id
      ensures Held(cap, t, g) && (Live(t.grants[g], t.now) ==> Latest(t, g))
    {
      assert s.grants[g].id == id && g <= step.g;
      if g < step.g {
        assert t.grants[step.g].id == t.grants[g].id && !Latest(t, g) && !Latest(s, g);
        assert t.grants[g] == s.grants[g];
      }
    }
  }

  lemma MarkCloses(cap: nat, s: State, step: Step, t: State)
    requires Next(cap, s, step, t) && IsMark(step)
    ensures t.grants == Close(s.grants, step.g) && t.now == s.now && |t.rows| == |s.rows|
    ensures forall id: EventId :: id < |s.rows| && id != s.grants[step.g].id ==> t.rows[id] == s.rows[id]
  {
  }

  lemma CloseKeepsOthers(grants: seq<Grant>, g: nat, id: EventId)
    requires g < |grants| && grants[g].id != id
    ensures forall k :: 0 <= k < |grants| ==>
              && Close(grants, g)[k].id == grants[k].id && Close(grants, g)[k].until == grants[k].until
              && (grants[k].id == id ==> Close(grants, g)[k].open == grants[k].open)
  {
  }

  lemma ElsewhereKeepsOrder(cap: nat, s: State, t: State, g: nat, id: EventId)
    requires g < |s.grants| && s.grants[g].id != id && t.grants == Close(s.grants, g)
    requires t.now == s.now && |t.rows| == |s.rows| && (id < |s.rows| ==> t.rows[id] == s.rows[id])
    requires Occurrences(t.accepted, id) == Occurrences(s.accepted, id)
    requires InOrder(cap, s, id) && (id >= |s.rows| ==> Occurrences(s.accepted, id) == 0)
    ensures InOrder(cap, t, id)
  {
    CloseKeepsOthers(s.grants, g, id);
    SameKeepsOrder(cap, s, t, id);
  }

  /** Any other mark. */
  lemma OtherMarkKeepsOrder(cap: nat, s: State, step: Step, t: State, id: EventId)
    requires Next(cap, s, step, t) && IsMark(step) && s.grants[step.g].id != id
    requires InOrder(cap, s, id) && (id >= |s.rows| ==> Occurrences(s.accepted, id) == 0)
    ensures InOrder(cap, t, id)
  {
    MarkAdds(s, step, t, cap, id);
    MarkCloses(cap, s, step, t);
    ElsewhereKeepsOrder(cap, s, t, step.g, id);
  }

  lemma StepKeepsOrder(cap: nat, s: State, step: Step, t: State, id: EventId)
    requires Inv(s) && Next(cap, s, step, t) && InOrder(cap, s, id) && !Overtaken(s, step, id)
    ensures InOrder(cap, t, id)
  {
    if step.Claim? {
      ClaimKeepsOrder(cap, s, ClaimBatch(s.rows, s.now, cap, step.limit), step.owner, s.now + step.ttl, step.sinks, t, id);
    } else if !IsMark(step) {
      SameKeepsOrder(cap, s, t, id);
    } else if s.grants[step.g].id == id {
      MarkKeepsOrder(cap, s, step, t, id);
    } else {
      OtherMarkKeepsOrder(cap, s, step, t, id);
    }
  }

  lemma {:induction false} RunKeepsOrder(cap: nat, states: seq<State>, steps: seq<Step>, i: nat, id: EventId)
    requires IsRun(cap, states, steps) && i < |states|
    requires forall m :: 0 <= m < i ==> !Overtaken(states[m], steps[m], id)
    ensures Inv(states[i]) && InOrder(cap, states[i], id)
  {
    RunKeeps(cap, states, steps, i);
    if i > 0 {
      RunKeepsOrder(cap, states, steps, i - 1, id);
      StepKeepsOrder(cap, states[i - 1], steps[i - 1], states[i], id);
    }
  }

  // ----- theorems over runs -----

  /** In every run attempts count the recorded failures, and an event has left the pool exactly
      when a success or cap failures were recorded for it. Unless one of its marks was
      overtaken, there are never more than that. */
  lemma LeavesThePoolIff(cap: nat, states: seq<State>, steps: seq<Step>, i: nat, id: EventId)
    requires IsRun(cap, states, steps) && i < |states| && id < |states[i].rows|
    ensures var s := states[i];
            && s.rows[id].attempts == Occurrences(s.refused, id)
            && (!InPool(s.rows[id], cap) <==> Occurrences(s.accepted, id) >= 1 || Occurrences(s.refused, id) >= cap)
    ensures (forall m :: 0 <= m < i ==> !Overtaken(states[m], steps[m], id)) ==>
              Occurrences(states[i].refused, id) <= cap && Occurrences(states[i].accepted, id) <= 1
  {
    RunKeeps(cap, states, steps, i);
    assert RowOk(states[i], id);
    if forall m :: 0 <= m < i ==> !Overtaken(states[m], steps[m], id) {
      RunKeepsOrder(cap, states, steps, i, id);
    }
  }

  /** So where all marks are on time, as those of a lone dispatcher are however slow its rounds,
      no event is tried more often than the cap says. */
  lemma TimelyRunsKeepTheCap(cap: nat, states: seq<State>, steps: seq<Step>, i: nat, id: EventId)
    requires IsRun(cap, states, steps) && TimelyFrom(states, steps, 0) && i < |states| && id < |states[i].rows|
    ensures states[i].rows[id].attempts <= cap && Occurrences(states[i].accepted, id) <= 1
  {
    assert forall m :: 0 <= m < i ==> NoneOvertaken(states[m], steps[m]);
    LeavesThePoolIff(cap, states, steps, i, id);
  }

  /** In every run of any number of dispatchers, late marks included, a delivered event was
      received by every sink of the dispatcher that delivered it, and that dispatcher had one. */
  lemma DeliveredWasReceived(cap: nat, states: seq<State>, steps: seq<Step>, i: nat, id: EventId)
    requires IsRun(cap, states, steps) && i < |states|
    requires id < |states[i].rows| && states[i].rows[id].delivered
    ensures exists g :: 0 <= g < |states[i].grants| && states[i].grants[g].id == id
              && var d := states[i].grants[g].sinks;
                 (d.webhook || d.itsm) && (d.webhook ==> id in states[i].eda) && (d.itsm ==> id in states[i].itsm)
  {
    RunKeeps(cap, states, steps, i);
    var g :| 0 <= g < |states[i].grants| && states[i].grants[g].id == id && Taken(states[i].grants[g]);
    assert Receipt(states[i], states[i].grants[g]);
  }

  /** An event none of whose marks was overtaken is handed to no second dispatcher before the
      first lease ends. */
  lemma OneHolder(cap: nat, states: seq<State>, steps: seq<Step>, i: nat, a: nat, b: nat)
    requires IsRun(cap, states, steps) && i < |states|
    requires a < |states[i].grants| && b < |states[i].grants|
    requires states[i].grants[a].id == states[i].grants[b].id
    requires forall m :: 0 <= m < i ==> !Overtaken(states[m], steps[m], states[i].grants[a].id)
    requires Live(states[i].grants[a], states[i].now) && Live(states[i].grants[b], states[i].now)
    ensures a == b
  {
    RunKeepsOrder(cap, states, steps, i, states[i].grants[a].id);
    assert Latest(states[i], a) && Latest(states[i], b);
  }

  ghost predicate Keeps(s: State, t: State, id: EventId) {
    id < |s.rows| && s.rows[id].delivered ==> id < |t.rows| && t.rows[id].delivered
  }

  lemma StepKeepsDelivered(cap: nat, s: State, step: Step, t: State, id: EventId)
    requires Next(cap, s, step, t)
    ensures Keeps(s, t, id)
  {
  }

  lemma {:induction false} KeepsAlong(states: seq<State>, i: nat, k: nat, id: EventId)
    requires forall m :: 0 < m < |states| ==> Keeps(states[m - 1], states[m], id)
    requires i <= k < |states|
    ensures Keeps(states[i], states[k], id)
    decreases k
  {
    if i < k {
      KeepsAlong(states, i, k - 1, id);
      assert Keeps(states[k - 1], states[k], id);
    }
  }

  /** A delivered event is never claimed again. */
  lemma DeliveredIsNeverClaimed(cap: nat, states: seq<State>, steps: seq<Step>, i: nat, k: nat, id: EventId)
    requires IsRun(cap, states, steps) && i <= k < |steps| && steps[k].Claim?
    requires id < |states[i].rows| && states[i].rows[id].delivered
    ensures id !in ClaimBatch(states[k].rows, states[k].now, cap, steps[k].limit)
  {
    forall m | 0 < m < |states| ensures Keeps(states[m - 1], states[m], id) {
      StepKeepsDelivered(cap, states[m - 1], steps[m - 1], states[m], id);
    }
    KeepsAlong(states, i, k, id);
  }

  // ----- overtaken marks do happen -----

  const NOBODY := State([], 0, [], [], [], [], [])

  const HOOK := Sinks(true, false)

  function Handed(until: Time, open: bool): Grant {
    Grant(0, until, open, HOOK, false, false)
  }

  lemma OnlyOne(rows: seq<Event>, now: Time)
    requires |rows| == 1 && Claimable(rows[0], now, 1)
    ensures ClaimBatch(rows, now, 1, 1) == [0]
  {
    AllMatchingChosen(rows, (e: Event) => Claimable(e, now, 1), 1, 0);
  }

  lemma OneClaimed(s: State, owner: string) returns (t: State)
    requires |s.rows| == 1 && Claimable(s.rows[0], s.now, 1)
    ensures Next(1, s, Claim(HOOK, owner, 1, 1), t)
    ensures t.rows == [s.rows[0].(leaseOwner := Some(owner), leaseExpires := Some(s.now + 1))]
    ensures t == s.(rows := t.rows, grants := s.grants + [Handed(s.now + 1, true)])
  {
    OnlyOne(s.rows, s.now);
    t := HandOut(s, [0], owner, s.now + 1, HOOK);
  }

  /** One event is claimed, its lease ends, and it is claimed again. */
  lemma ClaimedTwice() returns (states: seq<State>, steps: seq<Step>)
    ensures IsRun(1, states, steps) && |steps| == 4
    ensures states[4] == State(states[4].rows, 2, [Handed(1, true), Handed(3, true)], [], [], [], [])
    ensures |states[4].rows| == 1 && states[4].rows[0].attempts == 0 && !states[4].rows[0].delivered
    ensures forall m :: 0 <= m < 4 ==> !IsMark(steps[m])
  {
    var s1 := NOBODY.(rows := [FRESH]);
    var s2 := OneClaimed(s1, "a");
    var s3 := s2.(now := 2);
    var s4 := OneClaimed(s3, "b");
    assert s4.grants == [Handed(1, true), Handed(3, true)];
    states := [NOBODY, s1, s2, s3, s4];
    steps := [Append, Claim(HOOK, "a", 1, 1), Pass(2), Claim(HOOK, "b", 1, 1)];
    forall i | 0 <= i < 4 ensures Next(1, states[i], steps[i], states[i + 1]) {
      if i == 0 {
        assert Next(1, NOBODY, Append, s1);
      } else if i == 2 {
        assert Next(1, s2, Pass(2), s3);
      }
    }
  }

  /** With a cap of one, the failure the second dispatcher records and the late one of the first
      take the attempts above it. */
  lemma OvertakenMarkExceedsCap() returns (states: seq<State>, steps: seq<Step>)
    ensures IsRun(1, states, steps) && |steps| == 6
    ensures forall m :: 0 <= m < 5 ==> !Overtaken(states[m], steps[m], 0)
    ensures Overtaken(states[5], steps[5], 0)
    ensures |states[6].rows| == 1 && states[6].rows[0].attempts == 2
  {
    var states4, steps4 := ClaimedTwice();
    var s5 := Exec(1, states4[4], MarkFailed(1, "down"));
    var s6 := Exec(1, s5, MarkFailed(0, "down"));
    assert s5.grants[1].id == s5.grants[0].id && !Latest(s5, 0);
    states := states4 + [s5, s6];
    steps := steps4 + [MarkFailed(1, "down"), MarkFailed(0, "down")];
    forall m | 0 <= m < 5 ensures !Overtaken(states[m], steps[m], 0) {
      assert m < 4 ==> steps[m] == steps4[m];
    }
  }
}
