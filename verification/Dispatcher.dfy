/** The outbox dispatcher: one round claims a batch, delivers it to every configured sink and
    records each outcome (internal/eventbus/dispatcher.go). */
module Dispatcher {
  import opened Wrappers
  import opened Backoff
  import opened Selection
  import opened Outbox

  datatype Config = Config(webhook: bool, itsm: bool, owner: string, ttl: int, batch: int, maxAttempts: int)

  /** What the world answers for one event of a round: the time it takes, and the errors of the
      encoder, the two sinks and the two store statements. */
  datatype Answer = Answer(elapsed: nat, encode: Option<string>, eda: Option<string>, itsm: Option<string>,
                           markDelivered: Option<string>, markFailed: Option<string>)

  const NO_SINK := "no delivery sink configured"
  const NOT_RECORDED := "delivered but not recorded: "

  predicate Configured(cfg: Config) {
    cfg.webhook || cfg.itsm
  }

  predicate Accepted(cfg: Config, a: Answer) {
    && a.encode.None?
    && Configured(cfg)
    && (cfg.webhook ==> a.eda.None?)
    && (cfg.itsm ==> a.itsm.None?)
  }

  predicate EdaAccepts(cfg: Config, a: Answer) {
    cfg.webhook && a.encode.None? && a.eda.None?
  }

  predicate ItsmAccepts(cfg: Config, a: Answer) {
    cfg.itsm && a.encode.None? && (cfg.webhook ==> a.eda.None?) && a.itsm.None?
  }

  /** Whatever is recorded as delivered, every configured sink has received. */
  ghost predicate Received(cfg: Config, ids: seq<EventId>, n: nat, world: EventId -> Answer, eda: seq<EventId>, itsm: seq<EventId>)
    requires n <= |ids|
  {
    forall k :: 0 <= k < n && Succeeds(cfg, world(ids[k])) ==>
      (cfg.webhook ==> ids[k] in eda) && (cfg.itsm ==> ids[k] in itsm)
  }

  function DeliverError(cfg: Config, a: Answer): (err: Option<string>)
    ensures err.None? <==> Accepted(cfg, a)
  {
    if a.encode.Some? then a.encode
    else if cfg.webhook && a.eda.Some? then a.eda
    else if cfg.itsm && a.itsm.Some? then a.itsm
    else if !Configured(cfg) then Some(NO_SINK)
    else None
  }

  predicate Succeeds(cfg: Config, a: Answer) {
    Accepted(cfg, a) && a.markDelivered.None?
  }

  /** The row after its turn; a row whose failure could not be recorded keeps its lease. */
  function Settle(cfg: Config, e: Event, a: Answer): Event {
    if Succeeds(cfg, a) then Outbox.Delivered(e)
    else if a.markFailed.Some? then e
    else Rejected(e, match DeliverError(cfg, a)
                     case Some(err) => err
                     case None => NOT_RECORDED + a.markDelivered.value)
  }

  /** Every sink there is takes the event, in the order the dispatcher tries them. */
  predicate AllSinksTake(cfg: Config, a: Answer) {
    && a.encode.None? && (cfg.webhook || cfg.itsm)
    && (cfg.webhook ==> a.eda.None?) && (cfg.itsm ==> a.itsm.None?)
  }

  /** What the row of an event says after its turn, by the answers: delivered if all sinks took it
      and that could be recorded, else one attempt more with the first error, and if not even
      that could be recorded it is as before, under its lease. */
  lemma SettleMeaning(cfg: Config, e: Event, a: Answer)
    ensures var r := Settle(cfg, e, a);
            if AllSinksTake(cfg, a) && a.markDelivered.None? then
              r == e.(delivered := true, leaseOwner := None, leaseExpires := None)
            else if a.markFailed.Some? then r == e
            else
              && r == e.(attempts := e.attempts + 1, lastError := r.lastError, leaseOwner := None, leaseExpires := None)
              && r.lastError == Some(if a.encode.Some? then a.encode.value
                                     else if cfg.webhook && a.eda.Some? then a.eda.value
                                     else if cfg.itsm && a.itsm.Some? then a.itsm.value
                                     else if !cfg.webhook && !cfg.itsm then "no delivery sink configured"
                                     else "delivered but not recorded: " + a.markDelivered.value)
  {
  }

  function SettleAll(cfg: Config, rows: seq<Event>, ids: seq<EventId>, world: EventId -> Answer, n: nat): (r: seq<Event>)
    requires n <= |ids| && forall k :: 0 <= k < |ids| ==> ids[k] < |rows|
    ensures |r| == |rows|
  {
    if n == 0 then rows
    else
      var before := SettleAll(cfg, rows, ids, world, n - 1);
      before[ids[n - 1] := Settle(cfg, before[ids[n - 1]], world(ids[n - 1]))]
  }

  function Successes(cfg: Config, ids: seq<EventId>, world: EventId -> Answer, n: nat): (c: nat)
    requires n <= |ids|
    ensures c <= n
  {
    if n == 0 then 0
    else Successes(cfg, ids, world, n - 1) + if Succeeds(cfg, world(ids[n - 1])) then 1 else 0
  }

  function Cap(cfg: Config): nat {
    OrDefault(cfg.maxAttempts, 10)
  }

  function Lease(cfg: Config): nat {
    OrDefault(cfg.ttl, 2 * MINUTE)
  }

  function SinksOf(cfg: Config): Sinks {
    Sinks(cfg.webhook, cfg.itsm)
  }

  // ----- the store, the sinks and the dispatcher -----

  class EventStore {
    var rows: seq<Event>
    var now: Time
    ghost var grants: seq<Grant>
    ghost var accepted: seq<EventId>
    ghost var refused: seq<EventId>

    constructor (start: Time)
      ensures rows == [] && now == start && grants == [] && accepted == [] && refused == []
    {
      rows, now := [], start;
      grants, accepted, refused := [], [], [];
    }

    method Advance(d: nat)
      modifies this`now
      ensures now == old(now) + d
    {
      now := now + d;
    }

    /** None: the owner is required. */
    method ClaimUndeliveredEvents(owner: string, ttl: int, limit: int, maxAttempts: int, ghost sinks: Sinks)
      returns (r: Option<seq<EventId>>)
      modifies this`rows, this`grants
      ensures owner == "" ==> r.None? && rows == old(rows) && grants == old(grants)
      ensures owner != "" ==>
                var ids := ClaimBatch(old(rows), now, OrDefault(maxAttempts, 10), OrDefault(limit, 50));
                && r == Some(ids)
                && rows == LeaseRows(old(rows), ids, owner, now + OrDefault(ttl, 2 * MINUTE))
                && grants == old(grants) + NewGrants(ids, now + OrDefault(ttl, 2 * MINUTE), sinks)
    {
      if owner == "" {
        return None;
      }
      var cap, room := OrDefault(maxAttempts, 10), OrDefault(limit, 50);
      var ids := [];
      for i := 0 to |rows|
        invariant ids == ClaimIds(rows, now, cap, room, i)
      {
        if |ids| < room && Claimable(rows[i], now, cap) {
          ids := ids + [i];
        }
      }
      assert ids == ClaimBatch(rows, now, cap, room);
      rows := LeaseRows(rows, ids, owner, now + OrDefault(ttl, 2 * MINUTE));
      grants := grants + NewGrants(ids, now + OrDefault(ttl, 2 * MINUTE), sinks);
      r := Some(ids);
    }

    method MarkEventDelivered(id: EventId, err: Option<string>, ghost g: nat)
      requires id < |rows| && g < |grants|
      modifies this`rows, this`grants, this`accepted
      ensures err.Some? ==> rows == old(rows) && grants == old(grants) && accepted == old(accepted)
      ensures err.None? ==> && rows == old(rows)[id := Outbox.Delivered(old(rows)[id])]
                            && grants == Close(old(grants), g) && accepted == old(accepted) + [id]
    {
      if err.None? {
        rows := rows[id := rows[id].(delivered := true, leaseOwner := None, leaseExpires := None)];
        grants, accepted := Close(grants, g), accepted + [id];
      }
    }

    method MarkEventFailed(id: EventId, message: string, err: Option<string>, ghost g: nat)
      requires id < |rows| && g < |grants|
      modifies this`rows, this`grants, this`refused
      ensures err.Some? ==> rows == old(rows) && grants == old(grants) && refused == old(refused)
      ensures err.None? ==> && rows == old(rows)[id := Rejected(old(rows)[id], message)]
                            && grants == Close(old(grants), g) && refused == old(refused) + [id]
    {
      if err.None? {
        rows := rows[id := rows[id].(attempts := rows[id].attempts + 1, lastError := Some(message),
                                     leaseOwner := None, leaseExpires := None)];
        grants, refused := Close(grants, g), refused + [id];
      }
    }
  }

  /** The two webhooks of the outside world, and what they have received from anyone. */
  class SinkLog {
    var eda: seq<EventId>
    var itsm: seq<EventId>

    constructor ()
      ensures eda == [] && itsm == []
    {
      eda, itsm := [], [];
    }
  }

  class Dispatcher {
    const cfg: Config
    const store: EventStore
    const sinks: SinkLog

    constructor (cfg: Config, store: EventStore, sinks: SinkLog)
      ensures this.store == store && this.sinks == sinks
      ensures this.cfg.webhook == cfg.webhook && this.cfg.itsm == cfg.itsm
      ensures this.cfg.owner == if cfg.owner == "" then "eda-dispatcher" else cfg.owner
      ensures this.cfg.batch == OrDefault(cfg.batch, 50)
      ensures this.cfg.maxAttempts == Cap(cfg) && this.cfg.ttl == Lease(cfg)
    {
      this.cfg := cfg.(owner := if cfg.owner == "" then "eda-dispatcher" else cfg.owner,
                       batch := OrDefault(cfg.batch, 50),
                       maxAttempts := Cap(cfg),
                       ttl := Lease(cfg));
      this.store := store;
      this.sinks := sinks;
    }

    /** The state of the queue, whichever dispatchers work on it. */
    ghost function Machine(): State
      reads store, sinks
    {
      State(store.rows, store.now, store.grants, store.accepted, store.refused, sinks.eda, sinks.itsm)
    }

    /** No error means that every configured sink has received the event, and at least one is
        configured. ITSM is tried only after EDA took the event. The posts are steps of the
        queue. */
    method Deliver(id: EventId, a: Answer, ghost g: nat) returns (err: Option<string>, ghost posts: seq<Step>)
      requires id < |store.rows| && g < |store.grants| && store.grants[g].open && store.grants[g].id == id
      requires store.grants[g].sinks == SinksOf(cfg)
      modifies sinks, store`grants
      ensures err == DeliverError(cfg, a)
      ensures sinks.eda == old(sinks.eda) + (if EdaAccepts(cfg, a) then [id] else [])
      ensures sinks.itsm == old(sinks.itsm) + (if ItsmAccepts(cfg, a) then [id] else [])
      ensures |store.grants| == |old(store.grants)| && store.grants == old(store.grants)[g := store.grants[g]]
      ensures err.None? ==> Taken(store.grants[g])
      ensures store.grants[g].(eda := true, itsm := true) == old(store.grants[g]).(eda := true, itsm := true)
      ensures Leads(Cap(cfg), old(Machine()), posts, Machine())
    {
      posts := [];
      if a.encode.Some? {
        return a.encode, [];
      }
      if cfg.webhook {
        if a.eda.Some? {
          return a.eda, [];
        }
        posts := PostEda(id, g);
      }
      if cfg.itsm {
        if a.itsm.Some? {
          return a.itsm, posts;
        }
        ghost var mid := Machine();
        ghost var post := PostItsm(id, g);
        LeadsConcat(Cap(cfg), old(Machine()), posts, mid, post, Machine());
        posts := posts + post;
      }
      if !cfg.webhook && !cfg.itsm {
        return Some(NO_SINK), posts;
      }
      err := None;
    }

    method PostEda(id: EventId, ghost g: nat) returns (ghost posts: seq<Step>)
      requires id < |store.rows| && g < |store.grants| && store.grants[g].open && store.grants[g].id == id
      requires store.grants[g].sinks.webhook
      modifies sinks`eda, store`grants
      ensures sinks.eda == old(sinks.eda) + [id]
      ensures store.grants == old(store.grants)[g := old(store.grants[g]).(eda := true)]
      ensures Leads(Cap(cfg), old(Machine()), posts, Machine())
    {
      sinks.eda := sinks.eda + [id];
      store.grants := store.grants[g := store.grants[g].(eda := true)];
      posts := [Step.EdaTakes(g)];
      assert posts[1..] == [];
    }

    method PostItsm(id: EventId, ghost g: nat) returns (ghost posts: seq<Step>)
      requires id < |store.rows| && g < |store.grants| && store.grants[g].open && store.grants[g].id == id
      requires store.grants[g].sinks.itsm && (store.grants[g].sinks.webhook ==> store.grants[g].eda)
      modifies sinks`itsm, store`grants
      ensures sinks.itsm == old(sinks.itsm) + [id]
      ensures store.grants == old(store.grants)[g := old(store.grants[g]).(itsm := true)]
      ensures Leads(Cap(cfg), old(Machine()), posts, Machine())
    {
      sinks.itsm := sinks.itsm + [id];
      store.grants := store.grants[g := store.grants[g].(itsm := true)];
      posts := [Step.ItsmTakes(g)];
      assert posts[1..] == [];
    }

    /** One event of the batch, which nobody has been handed since, be the lease over or not:
        what happens is steps of the queue. */
    method HandleEvent(id: EventId, a: Answer, ghost g: nat) returns (delivered: bool, ghost steps: seq<Step>)
      requires id < |store.rows| && g < |store.grants|
      requires store.grants[g] == Grant(id, store.grants[g].until, true, SinksOf(cfg), false, false)
      requires Latest(Machine(), g)
      modifies store, sinks
      ensures Turn(cfg, old(Machine()), g, id, a, delivered, steps, Machine())
    {
      store.Advance(a.elapsed);
      ghost var m1 := Machine();
      var err;
      ghost var posts;
      err, posts := Deliver(id, a, g);
      ghost var m2 := Machine();
      ghost var marks;
      delivered, marks := Mark(id, a, err, g);
      steps := [Pass(a.elapsed)] + posts + marks;
      LeadsOn(Cap(cfg), old(Machine()), Pass(a.elapsed), m1, posts, m2, marks, Machine());
    }

    /** The outcome of a delivery, recorded; a delivery that cannot be recorded counts as a
        failed attempt. */
    method Mark(id: EventId, a: Answer, err: Option<string>, ghost g: nat) returns (delivered: bool, ghost marks: seq<Step>)
      requires id < |store.rows| && g < |store.grants| && store.grants[g].open && store.grants[g].id == id
      requires err == DeliverError(cfg, a) && (err.None? ==> Taken(store.grants[g])) && Latest(Machine(), g)
      modifies store`rows, store`grants, store`accepted, store`refused
      ensures delivered <==> Succeeds(cfg, a)
      ensures store.rows == old(store.rows)[id := Settle(cfg, old(store.rows)[id], a)]
      ensures |store.grants| == |old(store.grants)|
      ensures forall m :: 0 <= m < |store.grants| && m != g ==> store.grants[m] == old(store.grants)[m]
      ensures Leads(Cap(cfg), old(Machine()), marks, Machine())
    {
      if err.Some? {
        store.MarkEventFailed(id, err.value, a.markFailed, g);
        return false, if a.markFailed.Some? then [] else [Step.MarkFailed(g, err.value)];
      }
      store.MarkEventDelivered(id, a.markDelivered, g);
      if a.markDelivered.Some? {
        store.MarkEventFailed(id, NOT_RECORDED + a.markDelivered.value, a.markFailed, g);
        return false, if a.markFailed.Some? then [] else [Step.MarkFailed(g, NOT_RECORDED + a.markDelivered.value)];
      }
      return true, [Step.MarkDelivered(g)];
    }

    /** ok is false when the claim itself failed. */
    method RunOnce(world: EventId -> Answer) returns (ok: bool, delivered: nat, failed: nat, ghost steps: seq<Step>)
      modifies store, sinks
      ensures ok <==> cfg.owner != ""
      ensures !ok ==> store.rows == old(store.rows) && delivered == failed == 0
      ensures ok ==> RoundReport(cfg, old(Machine()), world, delivered, failed, steps, Machine())
    {
      ghost var start := Machine();
      var claimed;
      ghost var step;
      claimed, step := Claim();
      if claimed.None? {
        return false, 0, 0, [];
      }
      ok := true;
      ghost var mid := Machine();
      ghost var sends;
      delivered, failed, sends := SettleBatch(claimed.value, world, |start.grants|, start.now + Lease(cfg));
      steps := [step] + sends;
      RoundReported(cfg, start, step, mid, claimed.value, world, delivered, failed, sends, Machine());
    }

    method Claim() returns (claimed: Option<seq<EventId>>, ghost step: Step)
      modifies store`rows, store`grants
      ensures claimed.None? <==> cfg.owner == ""
      ensures claimed.None? ==> store.rows == old(store.rows)
      ensures claimed.Some? ==> ClaimDone(cfg, old(Machine()), claimed.value, step, Machine())
    {
      ghost var before := Machine();
      claimed := store.ClaimUndeliveredEvents(cfg.owner, cfg.ttl, cfg.batch, cfg.maxAttempts, SinksOf(cfg));
      step := Step.Claim(SinksOf(cfg), cfg.owner, Lease(cfg), OrDefault(cfg.batch, 50));
      assert claimed.Some? ==> Machine() == Exec(Cap(cfg), before, step);
    }

    /** The events of a batch whose grants start at base. */
    method SettleBatch(ids: seq<EventId>, world: EventId -> Answer, ghost base: nat, ghost until: Time)
      returns (delivered: nat, failed: nat, ghost steps: seq<Step>)
      requires Ready(Machine(), base, ids, until, SinksOf(cfg))
      modifies store, sinks
      ensures Settled(cfg, old(Machine()), ids, world, delivered, failed, steps, Machine())
    {
      ghost var start := Machine();
      delivered, failed, steps := 0, 0, [];
      for i := 0 to |ids|
        invariant delivered + failed == i
        invariant Progress(cfg, start, base, ids, world, until, i, delivered, steps, Machine())
      {
        ghost var mid := Machine();
        var done;
        ghost var more;
        NobodySince(mid, base, ids, until, SinksOf(cfg), i);
        done, more := HandleEvent(ids[i], world(ids[i]), base + i);
        Progresses(cfg, start, base, ids, world, until, i, delivered, steps, mid, done, more, Machine());
        steps := steps + more;
        if done {
          delivered := delivered + 1;
        } else {
          failed := failed + 1;
        }
      }
    }
  }

  /** What handling one event does: its row settles by its answer, no grant but its own changes,
      the sinks that accepted it have received it, and all of it is steps of the queue. */
  ghost predicate Turn(cfg: Config, before: State, g: nat, id: EventId, a: Answer, delivered: bool, steps: seq<Step>, after: State)
    requires id < |before.rows| && g < |before.grants|
  {
    && (delivered <==> Succeeds(cfg, a))
    && after.rows == before.rows[id := Settle(cfg, before.rows[id], a)] && after.now == before.now + a.elapsed
    && |after.grants| == |before.grants|
    && (forall m :: 0 <= m < |after.grants| && m != g ==> after.grants[m] == before.grants[m])
    && after.eda == before.eda + (if EdaAccepts(cfg, a) then [id] else [])
    && after.itsm == before.itsm + (if ItsmAccepts(cfg, a) then [id] else [])
    && Leads(Cap(cfg), before, steps, after)
  }

  /** The first i events of a batch have had their turn. */
  ghost predicate Progress(cfg: Config, before: State, base: nat, ids: seq<EventId>, world: EventId -> Answer, until: Time,
                           i: nat, delivered: nat, steps: seq<Step>, after: State)
    requires i <= |ids| && forall k :: 0 <= k < |ids| ==> ids[k] < |before.rows|
  {
    && delivered == Successes(cfg, ids, world, i)
    && after.rows == SettleAll(cfg, before.rows, ids, world, i)
    && Received(cfg, ids, i, world, after.eda, after.itsm)
    && Granted(after.grants, base, ids, until, SinksOf(cfg), i)
    && Leads(Cap(cfg), before, steps, after)
  }

  lemma Progresses(cfg: Config, before: State, base: nat, ids: seq<EventId>, world: EventId -> Answer, until: Time,
                   i: nat, delivered: nat, steps: seq<Step>, mid: State, done: bool, more: seq<Step>, after: State)
    requires i < |ids| && forall k :: 0 <= k < |ids| ==> ids[k] < |before.rows|
    requires Progress(cfg, before, base, ids, world, until, i, delivered, steps, mid)
    requires Turn(cfg, mid, base + i, ids[i], world(ids[i]), done, more, after)
    ensures Progress(cfg, before, base, ids, world, until, i + 1, delivered + if done then 1 else 0, steps + more, after)
  {
    LeadsConcat(Cap(cfg), before, steps, mid, more, after);
    StillGranted(mid.grants, after.grants, base, ids, until, SinksOf(cfg), i);
    StillReceived(cfg, ids, i, world, mid.eda, mid.itsm, after.eda, after.itsm);
  }

  /** What becomes of a claimed batch: every event counted once, as delivered or as failed, and
      a run of the queue. */
  ghost predicate Settled(cfg: Config, before: State, ids: seq<EventId>, world: EventId -> Answer,
                          delivered: nat, failed: nat, steps: seq<Step>, after: State)
    requires forall k :: 0 <= k < |ids| ==> ids[k] < |before.rows|
  {
    && delivered + failed == |ids| && delivered == Successes(cfg, ids, world, |ids|)
    && after.rows == SettleAll(cfg, before.rows, ids, world, |ids|)
    && Received(cfg, ids, |ids|, world, after.eda, after.itsm)
    && Leads(Cap(cfg), before, steps, after)
  }

  function BatchOf(cfg: Config, s: State): (ids: seq<EventId>)
    ensures forall k :: 0 <= k < |ids| ==> ids[k] < |s.rows|
  {
    ClaimBatch(s.rows, s.now, Cap(cfg), OrDefault(cfg.batch, 50))
  }

  /** A whole round over a batch: every event is counted once, as delivered or as failed; the
      table ends as the answers say; what is recorded as delivered was received; and the round
      is a run of the queue, however long it takes, in which no mark is overtaken. */
  ghost predicate BatchReport(cfg: Config, before: State, ids: seq<EventId>, world: EventId -> Answer,
                              delivered: nat, failed: nat, steps: seq<Step>, after: State)
  {
    && delivered + failed == |ids| && delivered == Successes(cfg, ids, world, |ids|)
    && after.rows == Round(cfg, before.rows, before.now, world)
    && Received(cfg, ids, |ids|, world, after.eda, after.itsm)
    && Leads(Cap(cfg), before, steps, after)
  }

  ghost predicate RoundReport(cfg: Config, before: State, world: EventId -> Answer, delivered: nat, failed: nat,
                              steps: seq<Step>, after: State)
  {
    BatchReport(cfg, before, BatchOf(cfg, before), world, delivered, failed, steps, after)
  }

  /** A batch with its grants, from base on. */
  ghost predicate Ready(s: State, base: nat, ids: seq<EventId>, until: Time, sinks: Sinks) {
    (forall k :: 0 <= k < |ids| ==> ids[k] < |s.rows|) && Increasing(ids) && Granted(s.grants, base, ids, until, sinks, 0)
  }

  lemma NobodySince(s: State, base: nat, ids: seq<EventId>, until: Time, sinks: Sinks, k: nat)
    requires Increasing(ids) && Granted(s.grants, base, ids, until, sinks, k) && k < |ids|
    ensures Latest(s, base + k)
  {
    forall g | base + k < g < |s.grants| ensures s.grants[g].id != s.grants[base + k].id {
      var m := g - base;
      assert s.grants[base + m] == Grant(ids[m], until, true, sinks, false, false);
      assert s.grants[base + k] == Grant(ids[k], until, true, sinks, false, false);
    }
  }

  ghost predicate ClaimDone(cfg: Config, before: State, ids: seq<EventId>, step: Step, after: State) {
    && ids == BatchOf(cfg, before) && after.now == before.now
    && after.rows == LeaseRows(before.rows, ids, cfg.owner, before.now + Lease(cfg))
    && Ready(after, |before.grants|, ids, before.now + Lease(cfg), SinksOf(cfg))
    && Next(Cap(cfg), before, step, after) && step.Claim?
  }

  lemma RoundReported(cfg: Config, before: State, step: Step, mid: State, ids: seq<EventId>, world: EventId -> Answer,
                      delivered: nat, failed: nat, sends: seq<Step>, after: State)
    requires ClaimDone(cfg, before, ids, step, mid)
    requires Settled(cfg, mid, ids, world, delivered, failed, sends, after)
    ensures RoundReport(cfg, before, world, delivered, failed, [step] + sends, after)
  {
    LeadsCons(Cap(cfg), before, step, sends, after);
    RoundRows(cfg, before, mid.rows, ids, world, after.rows);
  }

  lemma RoundRows(cfg: Config, before: State, leased: seq<Event>, ids: seq<EventId>, world: EventId -> Answer, after: seq<Event>)
    requires ids == BatchOf(cfg, before) && leased == LeaseRows(before.rows, ids, cfg.owner, before.now + Lease(cfg))
    requires after == SettleAll(cfg, leased, ids, world, |ids|)
    ensures after == Round(cfg, before.rows, before.now, world)
  {
  }

  /** The grants of the batch from its k-th event on are untouched. */
  ghost predicate Granted(grants: seq<Grant>, base: nat, ids: seq<EventId>, until: Time, sinks: Sinks, k: nat) {
    |grants| == base + |ids|
    && forall m :: k <= m < |ids| ==> grants[base + m] == Grant(ids[m], until, true, sinks, false, false)
  }

  lemma StillGranted(grants: seq<Grant>, grants': seq<Grant>, base: nat, ids: seq<EventId>, until: Time, sinks: Sinks, k: nat)
    requires Granted(grants, base, ids, until, sinks, k) && k < |ids| && |grants'| == |grants|
    requires forall m :: 0 <= m < |grants| && m != base + k ==> grants'[m] == grants[m]
    ensures Granted(grants', base, ids, until, sinks, k + 1)
  {
  }

  lemma StillReceived(cfg: Config, ids: seq<EventId>, k: nat, world: EventId -> Answer,
                      eda: seq<EventId>, itsm: seq<EventId>, eda': seq<EventId>, itsm': seq<EventId>)
    requires k < |ids| && Received(cfg, ids, k, world, eda, itsm)
    requires eda' == eda + if EdaAccepts(cfg, world(ids[k])) then [ids[k]] else []
    requires itsm' == itsm + if ItsmAccepts(cfg, world(ids[k])) then [ids[k]] else []
    ensures Received(cfg, ids, k + 1, world, eda', itsm')
  {
  }

  // ----- what a round achieves -----

  lemma {:induction false} SettleAllMeaning(cfg: Config, rows: seq<Event>, ids: seq<EventId>, world: EventId -> Answer, n: nat)
    requires n <= |ids| && Increasing(ids) && forall k :: 0 <= k < |ids| ==> ids[k] < |rows|
    ensures forall k :: 0 <= k < n ==> SettleAll(cfg, rows, ids, world, n)[ids[k]] == Settle(cfg, rows[ids[k]], world(ids[k]))
    ensures forall i :: 0 <= i < |rows| && (forall k :: 0 <= k < n ==> ids[k] != i) ==>
              SettleAll(cfg, rows, ids, world, n)[i] == rows[i]
  {
    if n > 0 {
      SettleAllMeaning(cfg, rows, ids, world, n - 1);
    }
  }

  /** Attempts still to be spent on undelivered events. */
  function Remaining(rows: seq<Event>, cap: nat): nat {
    if rows == [] then 0
    else Remaining(rows[..|rows| - 1], cap) + Left(rows[|rows| - 1], cap)
  }

  function Left(e: Event, cap: nat): nat {
    if InPool(e, cap) then cap - e.attempts else 0
  }

  lemma {:induction false} RemainingUpdate(rows: seq<Event>, cap: nat, id: nat, e: Event)
    requires id < |rows|
    ensures Remaining(rows[id := e], cap) == Remaining(rows, cap) - Left(rows[id], cap) + Left(e, cap)
  {
    var last := |rows| - 1;
    if id < last {
      RemainingUpdate(rows[..last], cap, id, e);
      assert rows[id := e][..last] == rows[..last][id := e];
    } else {
      assert rows[id := e][..last] == rows[..last];
    }
  }

  lemma {:induction false} RemainingAlike(rows: seq<Event>, other: seq<Event>, cap: nat)
    requires |rows| == |other| && forall i :: 0 <= i < |rows| ==> Left(rows[i], cap) == Left(other[i], cap)
    ensures Remaining(rows, cap) == Remaining(other, cap)
  {
    if rows != [] {
      RemainingAlike(rows[..|rows| - 1], other[..|rows| - 1], cap);
    }
  }

  lemma {:induction false} RemainingZero(rows: seq<Event>, cap: nat, id: nat)
    requires Remaining(rows, cap) == 0 && id < |rows|
    ensures !InPool(rows[id], cap)
  {
    if id < |rows| - 1 {
      RemainingZero(rows[..|rows| - 1], cap, id);
    }
  }

  ghost predicate Reliable(world: EventId -> Answer) {
    forall id: EventId :: world(id).markDelivered.None? && world(id).markFailed.None?
  }

  lemma SettleLeaves(cfg: Config, e: Event, a: Answer, cap: nat)
    requires InPool(e, cap) && a.markDelivered.None? && a.markFailed.None?
    ensures Left(Settle(cfg, e, a), cap) <= Left(e, cap) - 1
  {
  }

  /** An event still in the pool takes its turn. */
  lemma TurnCosts(cfg: Config, rows: seq<Event>, id: EventId, a: Answer, cap: nat)
    requires id < |rows| && InPool(rows[id], cap) && a.markDelivered.None? && a.markFailed.None?
    ensures Remaining(rows[id := Settle(cfg, rows[id], a)], cap) + 1 <= Remaining(rows, cap)
  {
    SettleLeaves(cfg, rows[id], a, cap);
    RemainingUpdate(rows, cap, id, Settle(cfg, rows[id], a));
  }

  /** Every event of the batch costs at least one remaining attempt. */
  lemma {:induction false} SettlingCosts(cfg: Config, rows: seq<Event>, ids: seq<EventId>, world: EventId -> Answer, cap: nat, n: nat)
    requires n <= |ids| && BatchInPool(rows, ids, cap) && Reliable(world)
    ensures Remaining(SettleAll(cfg, rows, ids, world, n), cap) + n <= Remaining(rows, cap)
  {
    if n > 0 {
      SettlingCosts(cfg, rows, ids, world, cap, n - 1);
      StillInPool(cfg, rows, ids, world, cap, n - 1);
      TurnCosts(cfg, SettleAll(cfg, rows, ids, world, n - 1), ids[n - 1], world(ids[n - 1]), cap);
    }
  }

  lemma StillInPool(cfg: Config, rows: seq<Event>, ids: seq<EventId>, world: EventId -> Answer, cap: nat, k: nat)
    requires k < |ids| && BatchInPool(rows, ids, cap)
    ensures InPool(SettleAll(cfg, rows, ids, world, k)[ids[k]], cap)
  {
    SettleAllMeaning(cfg, rows, ids, world, k);
    assert SettleAll(cfg, rows, ids, world, k)[ids[k]] == rows[ids[k]];
  }

  /** A batch is leased and settled. */
  function RoundOver(cfg: Config, rows: seq<Event>, ids: seq<EventId>, expires: Time, world: EventId -> Answer): (r: seq<Event>)
    requires forall k :: 0 <= k < |ids| ==> ids[k] < |rows|
    ensures |r| == |rows|
  {
    SettleAll(cfg, LeaseRows(rows, ids, cfg.owner, expires), ids, world, |ids|)
  }

  /** One round of the only dispatcher, as RunOnce leaves the table. */
  function Round(cfg: Config, rows: seq<Event>, now: Time, world: EventId -> Answer): (r: seq<Event>)
    ensures |r| == |rows|
  {
    RoundOver(cfg, rows, ClaimBatch(rows, now, Cap(cfg), OrDefault(cfg.batch, 50)), now + Lease(cfg), world)
  }

  /** Whatever leases events of the pool still carry have ended. */
  ghost predicate LeasesOver(rows: seq<Event>, cap: nat, now: Time) {
    forall i :: 0 <= i < |rows| && InPool(rows[i], cap) ==> Claimable(rows[i], now, cap)
  }

  ghost predicate BatchInPool(rows: seq<Event>, ids: seq<EventId>, cap: nat) {
    Increasing(ids) && forall k :: 0 <= k < |ids| ==> ids[k] < |rows| && InPool(rows[ids[k]], cap)
  }

  lemma LeasedBatch(rows: seq<Event>, ids: seq<EventId>, owner: string, expires: Time, cap: nat)
    requires BatchInPool(rows, ids, cap)
    ensures BatchInPool(LeaseRows(rows, ids, owner, expires), ids, cap)
    ensures Remaining(LeaseRows(rows, ids, owner, expires), cap) == Remaining(rows, cap)
  {
    RemainingAlike(rows, LeaseRows(rows, ids, owner, expires), cap);
  }

  lemma BatchCosts(cfg: Config, rows: seq<Event>, ids: seq<EventId>, expires: Time, world: EventId -> Answer)
    requires BatchInPool(rows, ids, Cap(cfg)) && Reliable(world)
    ensures Remaining(RoundOver(cfg, rows, ids, expires, world), Cap(cfg)) + |ids| <= Remaining(rows, Cap(cfg))
  {
    LeasedBatch(rows, ids, cfg.owner, expires, Cap(cfg));
    SettlingCosts(cfg, LeaseRows(rows, ids, cfg.owner, expires), ids, world, Cap(cfg), |ids|);
  }

  lemma ChosenInPool(rows: seq<Event>, now: Time, cap: nat, limit: nat)
    ensures BatchInPool(rows, ClaimBatch(rows, now, cap, limit), cap)
  {
  }

  /** A round spends at least one attempt per event of its batch, on an unchanged pool. */
  lemma RoundCosts(cfg: Config, rows: seq<Event>, now: Time, world: EventId -> Answer)
    requires Reliable(world)
    ensures Remaining(Round(cfg, rows, now, world), Cap(cfg)) + |ClaimBatch(rows, now, Cap(cfg), OrDefault(cfg.batch, 50))|
            <= Remaining(rows, Cap(cfg))
  {
    var ids := ClaimBatch(rows, now, Cap(cfg), OrDefault(cfg.batch, 50));
    ChosenInPool(rows, now, Cap(cfg), OrDefault(cfg.batch, 50));
    BatchCosts(cfg, rows, ids, now + Lease(cfg), world);
  }

  lemma BatchEndsLeases(cfg: Config, rows: seq<Event>, ids: seq<EventId>, expires: Time, world: EventId -> Answer,
                        cap: nat, now: Time, later: Time)
    requires Reliable(world) && LeasesOver(rows, cap, now) && now <= later && BatchInPool(rows, ids, cap)
    ensures LeasesOver(RoundOver(cfg, rows, ids, expires, world), cap, later)
  {
    var leased := LeaseRows(rows, ids, cfg.owner, expires);
    var after := SettleAll(cfg, leased, ids, world, |ids|);
    SettleAllMeaning(cfg, leased, ids, world, |ids|);
    forall i: EventId | i < |rows| && InPool(after[i], cap) ensures Claimable(after[i], later, cap) {
      if i in ids {
        assert after[i] == Settle(cfg, leased[i], world(i));
      } else {
        assert after[i] == rows[i];
      }
    }
  }

  lemma RoundEndsLeases(cfg: Config, rows: seq<Event>, now: Time, world: EventId -> Answer, later: Time)
    requires Reliable(world) && LeasesOver(rows, Cap(cfg), now) && now <= later
    ensures LeasesOver(Round(cfg, rows, now, world), Cap(cfg), later)
  {
    ChosenInPool(rows, now, Cap(cfg), OrDefault(cfg.batch, 50));
    BatchEndsLeases(cfg, rows, ClaimBatch(rows, now, Cap(cfg), OrDefault(cfg.batch, 50)), now + Lease(cfg), world,
                    Cap(cfg), now, later);
  }

  ghost predicate Drains(cap: nat, before: seq<Event>, now: Time, after: seq<Event>, later: Time) {
    LeasesOver(before, cap, now) ==>
      && LeasesOver(after, cap, later)
      && (Remaining(before, cap) > 0 ==> Remaining(after, cap) < Remaining(before, cap))
      && Remaining(after, cap) <= Remaining(before, cap)
  }

  lemma RoundDrains(cfg: Config, rows: seq<Event>, now: Time, world: EventId -> Answer, later: Time)
    requires Reliable(world) && now <= later
    ensures Drains(Cap(cfg), rows, now, Round(cfg, rows, now, world), later)
  {
    var cap, limit := Cap(cfg), OrDefault(cfg.batch, 50);
    if LeasesOver(rows, cap, now) {
      RoundCosts(cfg, rows, now, world);
      RoundEndsLeases(cfg, rows, now, world, later);
      if ClaimBatch(rows, now, cap, limit) == [] {
        NothingClaimedNothingLeft(rows, now, cap, limit);
      }
    }
  }

  lemma NothingClaimedNothingLeft(rows: seq<Event>, now: Time, cap: nat, limit: nat)
    requires limit > 0 && LeasesOver(rows, cap, now) && ClaimBatch(rows, now, cap, limit) == []
    ensures Remaining(rows, cap) == 0
  {
    FirstMatchingMeaning(rows, (e: Event) => Claimable(e, now, cap), limit, |rows|);
    assert forall i :: 0 <= i < |rows| ==> !Claimable(rows[i], now, cap);
    EmptyPool(rows, cap);
  }

  lemma {:induction false} EmptyPool(rows: seq<Event>, cap: nat)
    requires forall i :: 0 <= i < |rows| ==> !InPool(rows[i], cap)
    ensures Remaining(rows, cap) == 0
  {
    if rows != [] {
      EmptyPool(rows[..|rows| - 1], cap);
    }
  }

  datatype Tick = Tick(now: Time, world: EventId -> Answer)

  /** Consecutive rounds: tables[k] is the table before ticks[k]. */
  ghost predicate AreRounds(cfg: Config, tables: seq<seq<Event>>, ticks: seq<Tick>) {
    && |tables| == |ticks| + 1
    && (forall k :: 0 <= k < |ticks| ==> Reliable(ticks[k].world))
    && (forall k :: 0 <= k < |ticks| - 1 ==> ticks[k].now <= ticks[k + 1].now)
    && (forall k :: 0 <= k < |ticks| ==> tables[k + 1] == Round(cfg, tables[k], ticks[k].now, ticks[k].world))
  }

  /** When round k starts; the table after the last round is looked at as of that round. */
  function StartOf(ticks: seq<Tick>, k: nat): Time
    requires ticks != []
  {
    if k < |ticks| then ticks[k].now else ticks[|ticks| - 1].now
  }

  ghost predicate DrainsAt(cap: nat, tables: seq<seq<Event>>, ticks: seq<Tick>, k: nat)
    requires ticks != [] && 0 < k < |tables|
  {
    Drains(cap, tables[k - 1], StartOf(ticks, k - 1), tables[k], StartOf(ticks, k))
  }

  lemma {:induction false} DrainsAlong(cap: nat, tables: seq<seq<Event>>, ticks: seq<Tick>, n: nat)
    requires ticks != [] && n < |tables| && LeasesOver(tables[0], cap, StartOf(ticks, 0))
    requires forall k :: 0 < k < |tables| ==> DrainsAt(cap, tables, ticks, k)
    ensures LeasesOver(tables[n], cap, StartOf(ticks, n))
    ensures Remaining(tables[n], cap) <= if n <= Remaining(tables[0], cap) then Remaining(tables[0], cap) - n else 0
  {
    if n > 0 {
      DrainsAlong(cap, tables, ticks, n - 1);
      assert DrainsAt(cap, tables, ticks, n);
    }
  }

  /** With a reliable store the queue drains, whatever the sinks answer: once the leases a
      crashed dispatcher may have left are over, after as many rounds as attempts remained
      every event is delivered or has used up its attempts. */
  lemma QueueDrains(cfg: Config, tables: seq<seq<Event>>, ticks: seq<Tick>)
    requires AreRounds(cfg, tables, ticks)
    requires ticks != [] ==> LeasesOver(tables[0], Cap(cfg), ticks[0].now)
    requires |ticks| >= Remaining(tables[0], Cap(cfg))
    ensures forall e :: e in tables[|ticks|] ==> e.delivered || e.attempts >= Cap(cfg)
  {
    var cap := Cap(cfg);
    if ticks != [] {
      forall k | 0 < k < |tables| ensures DrainsAt(cap, tables, ticks, k) {
        RoundDrains(cfg, tables[k - 1], ticks[k - 1].now, ticks[k - 1].world, StartOf(ticks, k));
      }
      DrainsAlong(cap, tables, ticks, |ticks|);
    }
    forall e | e in tables[|ticks|] ensures !InPool(e, cap) {
      var i :| 0 <= i < |tables[|ticks|]| && tables[|ticks|][i] == e;
      RemainingZero(tables[|ticks|], cap, i);
    }
  }
}
