/** The durable scan queue: the store statements on scan rows (internal/store/store.go) and the
    fleet of scan workers with their slots and heartbeats (internal/api/scan_worker.go). */
module ScanQueue {
  import opened Wrappers
  import opened Backoff
  import opened Selection

  type ScanId = nat

  datatype ScanStatus = Pending | Running | Completed | Failed

  datatype Scan = Scan(status: ScanStatus, claimedBy: Option<string>, claimedAt: Option<Time>, startedAt: Option<Time>)

  const QUEUED := Scan(Pending, None, None, None)

  predicate Ended(r: Scan) {
    r.status.Completed? || r.status.Failed?
  }

  predicate Claimable(r: Scan, staleBefore: Time) {
    r.status.Pending? || (r.status.Running? && (r.claimedAt.None? || r.claimedAt.value < staleBefore))
  }

  function ClaimBatch(rows: seq<Scan>, staleBefore: Time, limit: nat): (ids: seq<ScanId>)
    ensures Increasing(ids) && |ids| <= limit
    ensures forall k :: 0 <= k < |ids| ==> ids[k] < |rows| && Claimable(rows[ids[k]], staleBefore)
  {
    FirstMatchingMeaning(rows, (r: Scan) => Claimable(r, staleBefore), limit, |rows|);
    FirstMatching(rows, (r: Scan) => Claimable(r, staleBefore), limit, |rows|)
  }

  function Claimed(r: Scan, owner: string, now: Time): Scan {
    Scan(Running, Some(owner), Some(now), if r.startedAt.None? then Some(now) else r.startedAt)
  }

  function ClaimRows(rows: seq<Scan>, ids: seq<ScanId>, owner: string, now: Time): (r: seq<Scan>)
    ensures |r| == |rows|
  {
    seq(|rows|, i requires 0 <= i < |rows| => if i in ids then Claimed(rows[i], owner, now) else rows[i])
  }

  predicate OwnedBy(r: Scan, owner: string) {
    r.claimedBy == Some(owner) && r.status.Running?
  }

  function Beaten(r: Scan, owner: string, now: Time): Scan {
    if OwnedBy(r, owner) then r.(claimedAt := Some(now)) else r
  }

  function Released(r: Scan, owner: string): Scan {
    if OwnedBy(r, owner) then r.(claimedBy := None, claimedAt := None) else r
  }

  function MarkedRunning(r: Scan, now: Time): Scan {
    r.(status := Running, startedAt := Some(now))
  }

  function Closed(r: Scan, ok: bool): Scan {
    r.(status := if ok then Completed else Failed, claimedBy := None, claimedAt := None)
  }

  /** The store functions, each one statement or transaction. */
  class ScanStore {
    var rows: seq<Scan>
    var now: Time

    constructor (start: Time)
      ensures rows == [] && now == start
    {
      rows, now := [], start;
    }

    /** None: the owner is required. */
    method ClaimNextScans(owner: string, ttl: int, limit: int) returns (r: Option<seq<ScanId>>)
      modifies this`rows
      ensures owner == "" ==> r.None? && rows == old(rows)
      ensures owner != "" ==>
                var ids := ClaimBatch(old(rows), now - OrDefault(ttl, 30 * SECOND), OrDefault(limit, 1));
                r == Some(ids) && rows == ClaimRows(old(rows), ids, owner, now)
    {
      if owner == "" {
        return None;
      }
      var room := OrDefault(limit, 1);
      var staleBefore := now - OrDefault(ttl, 30 * SECOND);
      var ids := [];
      for i := 0 to |rows|
        invariant ids == FirstMatching(rows, (r: Scan) => Claimable(r, staleBefore), room, i)
      {
        if |ids| < room && Claimable(rows[i], staleBefore) {
          ids := ids + [i];
        }
      }
      assert ids == ClaimBatch(rows, staleBefore, room);
      rows := ClaimRows(rows, ids, owner, now);
      r := Some(ids);
    }

    method HeartbeatScanClaim(id: ScanId, owner: string) returns (ok: bool)
      modifies this`rows
      ensures ok <==> id < |old(rows)| && OwnedBy(old(rows)[id], owner)
      ensures rows == if id < |old(rows)| then old(rows)[id := Beaten(old(rows)[id], owner, now)] else old(rows)
    {
      ok := id < |rows| && rows[id].claimedBy == Some(owner) && rows[id].status.Running?;
      if ok {
        rows := rows[id := rows[id].(claimedAt := Some(now))];
      }
    }

    method ReleaseScanClaim(id: ScanId, owner: string)
      modifies this`rows
      ensures rows == if id < |old(rows)| then old(rows)[id := Released(old(rows)[id], owner)] else old(rows)
    {
      if id < |rows| && rows[id].claimedBy == Some(owner) && rows[id].status.Running? {
        rows := rows[id := rows[id].(claimedBy := None, claimedAt := None)];
      }
    }

    /** Asks for the id only, whoever owns the scan and whatever has become of it. */
    method UpdateScanRunning(id: ScanId)
      modifies this`rows
      ensures rows == if id < |old(rows)| then old(rows)[id := MarkedRunning(old(rows)[id], now)] else old(rows)
      ensures id < |rows| ==> rows[id].status.Running? && rows[id].startedAt == Some(now)
      ensures id < |rows| ==> rows[id].claimedBy == old(rows)[id].claimedBy && rows[id].claimedAt == old(rows)[id].claimedAt
    {
      if id < |rows| {
        rows := rows[id := rows[id].(status := Running, startedAt := Some(now))];
      }
    }

    /** CompleteScan and FailScan. */
    method CloseScan(id: ScanId, ok: bool)
      modifies this`rows
      ensures rows == if id < |old(rows)| then old(rows)[id := Closed(old(rows)[id], ok)] else old(rows)
    {
      if id < |rows| {
        rows := rows[id := rows[id].(status := if ok then Completed else Failed, claimedBy := None, claimedAt := None)];
      }
    }
  }

  // ----- the fleet -----

  datatype Phase = Waiting | Executing | Finished | Gone

  /** A scan claimed by a worker, and when its claim was last refreshed. Waiting: not yet past
      the semaphore. Finished: the row is closed but the slot not yet given back. */
  datatype Item = Item(worker: nat, id: ScanId, beat: Time, phase: Phase)

  datatype WorkerConfig = WorkerConfig(owner: string, slots: nat)

  /** late: how long after the heartbeat interval a refresh may still land. */
  datatype Fleet = Fleet(workers: seq<WorkerConfig>, lease: nat, late: nat)

  datatype State = State(rows: seq<Scan>, now: Time, items: seq<Item>)

  /** Leave: the worker gives the slot back, releasing the claim when it was cancelled.
      Abandon: the run ended but its last statement failed, so the row stays claimed. */
  datatype Step =
    | Pass(d: nat)
    | Submit
    | TickClaim(worker: nat)
    | Start(item: nat)
    | CancelTick(item: nat)
    | MarkRunning(item: nat)
    | Heartbeat(item: nat)
    | Close(item: nat, ok: bool)
    | Leave(item: nat)
    | Abandon(item: nat)
    | Crash(worker: nat)

  /** Heartbeats come every half lease, but not more often than every second. */
  function Interval(lease: nat): (d: nat)
    ensures d >= SECOND && 2 * d >= lease - 1
    ensures d > SECOND ==> 2 * d <= lease
  {
    if lease / 2 < SECOND then SECOND else lease / 2
  }

  predicate Live(x: Item) {
    x.phase.Waiting? || x.phase.Executing?
  }

  function Weight(x: Item, worker: nat, waiting: bool): nat {
    if x.worker == worker && (x.phase.Executing? || x.phase.Finished? || (waiting && x.phase.Waiting?)) then 1 else 0
  }

  /** Tokens in the semaphore of a worker; with waiting, also the claimed scans still to enter. */
  function Tokens(items: seq<Item>, worker: nat, waiting: bool): nat {
    if items == [] then 0
    else Tokens(items[..|items| - 1], worker, waiting) + Weight(items[|items| - 1], worker, waiting)
  }

  /** The items of a worker that hold a slot, or also those that wait for one. */
  function SlotHolders(items: seq<Item>, worker: nat, waiting: bool): set<nat> {
    set k | 0 <= k < |items| && items[k].worker == worker
            && (items[k].phase.Executing? || items[k].phase.Finished? || (waiting && items[k].phase.Waiting?))
  }

  /** Tokens are those items, counted. */
  lemma {:induction false} TokensMeaning(items: seq<Item>, worker: nat, waiting: bool)
    ensures Tokens(items, worker, waiting) == |SlotHolders(items, worker, waiting)|
    decreases |items|
  {
    if items == [] {
      assert SlotHolders(items, worker, waiting) == {};
    } else {
      var n := |items| - 1;
      TokensMeaning(items[..n], worker, waiting);
      OneMoreHolder(items, worker, waiting);
    }
  }

  lemma OneMoreHolder(items: seq<Item>, worker: nat, waiting: bool)
    requires items != []
    ensures var n := |items| - 1;
            |SlotHolders(items, worker, waiting)| == |SlotHolders(items[..n], worker, waiting)| + Weight(items[n], worker, waiting)
  {
    var n := |items| - 1;
    var before, after := SlotHolders(items[..n], worker, waiting), SlotHolders(items, worker, waiting);
    assert n !in before;
    if Weight(items[n], worker, waiting) == 1 {
      assert after == before + {n};
    } else {
      assert after == before;
    }
  }

  predicate IsItem(f: Fleet, s: State, k: nat) {
    k < |s.items| && s.items[k].worker < |f.workers| && s.items[k].id < |s.rows|
  }

  predicate Enabled(f: Fleet, s: State, step: Step) {
    match step
    case Pass(d) =>
      forall k :: 0 <= k < |s.items| && Live(s.items[k]) ==> s.now + d <= s.items[k].beat + Interval(f.lease) + f.late
    case Submit => true
    case TickClaim(w) =>
      && w < |f.workers|
      && forall k :: 0 <= k < |s.items| && s.items[k].worker == w ==> !s.items[k].phase.Waiting?
    case Start(k) =>
      IsItem(f, s, k) && s.items[k].phase.Waiting?
      && Tokens(s.items, s.items[k].worker, false) < f.workers[s.items[k].worker].slots
    case CancelTick(k) => IsItem(f, s, k) && s.items[k].phase.Waiting?
    case MarkRunning(k) => IsItem(f, s, k) && s.items[k].phase.Executing?
    case Heartbeat(k) => IsItem(f, s, k) && (s.items[k].phase.Executing? || s.items[k].phase.Finished?)
    case Close(k, _) => IsItem(f, s, k) && s.items[k].phase.Executing?
    case Leave(k) => IsItem(f, s, k) && (s.items[k].phase.Executing? || s.items[k].phase.Finished?)
    case Abandon(k) => IsItem(f, s, k) && s.items[k].phase.Executing?
    case Crash(w) => w < |f.workers|
  }

  function Batch(f: Fleet, s: State, w: nat): (ids: seq<ScanId>)
    requires w < |f.workers|
  {
    var busy := Tokens(s.items, w, false);
    if f.workers[w].slots <= busy then [] else ClaimBatch(s.rows, s.now - f.lease, f.workers[w].slots - busy)
  }

  function HandOut(s: State, ids: seq<ScanId>, w: nat, owner: string): State {
    s.(rows := ClaimRows(s.rows, ids, owner, s.now),
       items := s.items + seq(|ids|, k requires 0 <= k < |ids| => Item(w, ids[k], s.now, Waiting)))
  }

  function Touch(s: State, k: nat, r: Scan, x: Item): State
    requires k < |s.items| && s.items[k].id < |s.rows|
  {
    s.(rows := s.rows[s.items[k].id := r], items := s.items[k := x])
  }

  /** A cancelled tick releases the scan at hand and forgets the rest of its batch; a crash
      forgets everything the worker holds. */
  function Forget(items: seq<Item>, w: nat, all: bool): (r: seq<Item>)
    ensures |r| == |items|
  {
    seq(|items|, k requires 0 <= k < |items| =>
      if items[k].worker == w && (all || items[k].phase.Waiting?) then items[k].(phase := Gone) else items[k])
  }

  function Exec(f: Fleet, s: State, step: Step): State
    requires Enabled(f, s, step)
  {
    match step
    case Pass(d) => s.(now := s.now + d)
    case Submit => s.(rows := s.rows + [QUEUED])
    case TickClaim(w) => HandOut(s, Batch(f, s, w), w, f.workers[w].owner)
    case Start(k) => s.(items := s.items[k := s.items[k].(phase := Executing)])
    case CancelTick(k) =>
      var x := s.items[k];
      s.(rows := s.rows[x.id := Released(s.rows[x.id], f.workers[x.worker].owner)],
         items := Forget(s.items, x.worker, false))
    case MarkRunning(k) =>
      var x := s.items[k];
      Touch(s, k, MarkedRunning(s.rows[x.id], s.now), x)
    case Heartbeat(k) =>
      var x := s.items[k];
      var owner := f.workers[x.worker].owner;
      Touch(s, k, Beaten(s.rows[x.id], owner, s.now),
            if OwnedBy(s.rows[x.id], owner) && x.phase.Executing? then x.(beat := s.now) else x)
    case Close(k, ok) =>
      var x := s.items[k];
      Touch(s, k, Closed(s.rows[x.id], ok), x.(phase := Finished))
    case Leave(k) =>
      var x := s.items[k];
      Touch(s, k, Released(s.rows[x.id], f.workers[x.worker].owner), x.(phase := Gone))
    case Abandon(k) => s.(items := s.items[k := s.items[k].(phase := Gone)])
    case Crash(w) => s.(items := Forget(s.items, w, true))
  }

  ghost predicate Init(s: State) {
    s.rows == [] && s.items == []
  }

  ghost predicate Next(f: Fleet, s: State, step: Step, t: State) {
    Enabled(f, s, step) && t == Exec(f, s, step)
  }

  ghost predicate IsRun(f: Fleet, states: seq<State>, steps: seq<Step>) {
    |states| == |steps| + 1 && Init(states[0])
    && forall i :: 0 <= i < |steps| ==> Next(f, states[i], steps[i], states[i + 1])
  }

  // ----- slots -----

  ghost predicate WithinSlots(f: Fleet, s: State) {
    forall w :: 0 <= w < |f.workers| ==> Tokens(s.items, w, true) <= f.workers[w].slots
  }

  lemma {:induction false} TokensUpdate(items: seq<Item>, k: nat, x: Item, w: nat, waiting: bool)
    requires k < |items|
    ensures Tokens(items[k := x], w, waiting) == Tokens(items, w, waiting) - Weight(items[k], w, waiting) + Weight(x, w, waiting)
  {
    var last := |items| - 1;
    if k < last {
      TokensUpdate(items[..last], k, x, w, waiting);
      assert items[k := x][..last] == items[..last][k := x];
    } else {
      assert items[k := x][..last] == items[..last];
    }
  }

  lemma {:induction false} TokensAppend(items: seq<Item>, more: seq<Item>, w: nat, waiting: bool)
    ensures Tokens(items + more, w, waiting) <= Tokens(items, w, waiting) + |more|
    ensures (forall k :: 0 <= k < |more| ==> more[k].worker != w) ==>
              Tokens(items + more, w, waiting) == Tokens(items, w, waiting)
  {
    if more != [] {
      TokensAppend(items, more[..|more| - 1], w, waiting);
      assert (items + more)[..|items + more| - 1] == items + more[..|more| - 1];
    } else {
      assert items + more == items;
    }
  }

  lemma {:induction false} TokensDrop(items: seq<Item>, w: nat, gone: nat, all: bool)
    ensures Tokens(Forget(items, gone, all), w, true) <= Tokens(items, w, true)
  {
    if items != [] {
      TokensDrop(items[..|items| - 1], w, gone, all);
      assert Forget(items, gone, all)[..|items| - 1] == Forget(items[..|items| - 1], gone, all);
    }
  }

  /** Waiting scans are exactly the difference between the two counts. */
  lemma {:induction false} TokensWaiting(items: seq<Item>, w: nat)
    ensures Tokens(items, w, false) <= Tokens(items, w, true)
    ensures (exists k :: 0 <= k < |items| && items[k].worker == w && items[k].phase.Waiting?)
            <==> Tokens(items, w, false) < Tokens(items, w, true)
  {
    if items != [] {
      TokensWaiting(items[..|items| - 1], w);
    }
  }

  lemma ClaimKeepsSlots(f: Fleet, s: State, w: nat)
    requires WithinSlots(f, s) && Enabled(f, s, TickClaim(w))
    ensures WithinSlots(f, Exec(f, s, TickClaim(w)))
  {
    var ids := Batch(f, s, w);
    var more := seq(|ids|, k requires 0 <= k < |ids| => Item(w, ids[k], s.now, Waiting));
    forall v | 0 <= v < |f.workers| ensures Tokens(s.items + more, v, true) <= f.workers[v].slots {
      TokensAppend(s.items, more, v, true);
      TokensWaiting(s.items, v);
    }
  }

  lemma StepKeepsSlots(f: Fleet, s: State, step: Step)
    requires WithinSlots(f, s) && Enabled(f, s, step)
    ensures WithinSlots(f, Exec(f, s, step))
  {
    var t := Exec(f, s, step);
    if step.TickClaim? {
      ClaimKeepsSlots(f, s, step.worker);
    } else {
      forall w | 0 <= w < |f.workers| ensures Tokens(t.items, w, true) <= Tokens(s.items, w, true) {
        match step
        case Pass(_) =>
        case Submit =>
        case TickClaim(_) =>
        case CancelTick(k) => TokensDrop(s.items, w, s.items[k].worker, false);
        case Crash(v) => TokensDrop(s.items, w, v, true);
        case Start(k) => TokensUpdate(s.items, k, t.items[k], w, true);
        case MarkRunning(k) => TokensUpdate(s.items, k, t.items[k], w, true);
        case Heartbeat(k) => TokensUpdate(s.items, k, t.items[k], w, true);
        case Close(k, _) => TokensUpdate(s.items, k, t.items[k], w, true);
        case Leave(k) => TokensUpdate(s.items, k, t.items[k], w, true);
        case Abandon(k) => TokensUpdate(s.items, k, t.items[k], w, true);
      }
    }
  }

  lemma {:induction false} RunKeepsSlots(f: Fleet, states: seq<State>, steps: seq<Step>, i: nat)
    requires IsRun(f, states, steps) && i < |states|
    ensures WithinSlots(f, states[i])
  {
    if i > 0 {
      RunKeepsSlots(f, states, steps, i - 1);
      StepKeepsSlots(f, states[i - 1], steps[i - 1]);
    }
  }

  /** A worker never executes more scans than it has slots, and never blocks on its
      semaphore: while a claimed scan waits to enter, a slot is free. */
  lemma SlotsSuffice(f: Fleet, states: seq<State>, steps: seq<Step>, i: nat, w: nat)
    requires IsRun(f, states, steps) && i < |states| && w < |f.workers|
    ensures Tokens(states[i].items, w, false) <= f.workers[w].slots
    ensures (exists k :: 0 <= k < |states[i].items| && states[i].items[k].worker == w && states[i].items[k].phase.Waiting?)
            ==> Tokens(states[i].items, w, false) < f.workers[w].slots
  {
    RunKeepsSlots(f, states, steps, i);
    TokensWaiting(states[i].items, w);
  }

  // ----- exclusion -----

  /** Heartbeats land within one lease of each other. */
  predicate OnTime(f: Fleet) {
    Interval(f.lease) + f.late <= f.lease
  }

  /** A lease of at least one second leaves room for its own heartbeat, a shorter one does not. */
  lemma LeaseFitsItsHeartbeatIff(lease: nat)
    ensures OnTime(Fleet([], lease, 0)) <==> lease >= SECOND
    ensures lease >= 2 * SECOND ==> OnTime(Fleet([], lease, lease / 2))
  {
  }

  ghost predicate Held(f: Fleet, s: State, x: Item) {
    && x.worker < |f.workers| && x.id < |s.rows|
    && (Live(x) ==>
          && OwnedBy(s.rows[x.id], f.workers[x.worker].owner)
          && s.rows[x.id].claimedAt == Some(x.beat)
          && s.now <= x.beat + f.lease)
  }

  ghost predicate Exclusive(s: State) {
    forall i, k :: 0 <= i < k < |s.items| && s.items[i].id == s.items[k].id ==> !(Live(s.items[i]) && Live(s.items[k]))
  }

  ghost predicate Inv(f: Fleet, s: State) {
    && (forall k :: 0 <= k < |s.items| ==> Held(f, s, s.items[k]))
    && Exclusive(s)
  }

  lemma ClaimKeeps(f: Fleet, s: State, w: nat)
    requires Inv(f, s) && w < |f.workers|
    ensures Inv(f, HandOut(s, Batch(f, s, w), w, f.workers[w].owner))
  {
    var ids := Batch(f, s, w);
    var t := HandOut(s, ids, w, f.workers[w].owner);
    forall k | 0 <= k < |t.items| ensures Held(f, t, t.items[k]) {
      if k < |s.items| {
        assert t.items[k] == s.items[k] && Held(f, s, s.items[k]);
      } else {
        assert t.items[k].id == ids[k - |s.items|] && t.items[k].id in ids;
      }
    }
    forall i, k | 0 <= i < k < |t.items| && t.items[i].id == t.items[k].id
      ensures !(Live(t.items[i]) && Live(t.items[k]))
    {
      if k < |s.items| {
        assert t.items[i] == s.items[i] && t.items[k] == s.items[k];
      } else if i < |s.items| {
        assert t.items[i] == s.items[i] && Held(f, s, s.items[i]) && t.items[k].id == ids[k - |s.items|];
      }
    }
  }

  /** Steps of one holder: the touched row belongs to no other live item. */
  lemma TouchKeeps(f: Fleet, s: State, k: nat, r: Scan, x: Item)
    requires Inv(f, s) && k < |s.items| && s.items[k].id < |s.rows|
    requires x.id == s.items[k].id && (Live(x) ==> Live(s.items[k]))
    requires Held(f, Touch(s, k, r, x), x)
    requires Live(s.items[k]) || r == s.rows[s.items[k].id]
    ensures Inv(f, Touch(s, k, r, x))
  {
    var t := Touch(s, k, r, x);
    forall i | 0 <= i < |t.items| ensures Held(f, t, t.items[i]) {
      assert Held(f, s, s.items[i]);
      if i != k && s.items[i].id == x.id && Live(s.items[k]) {
        assert !Live(s.items[i]);
      }
    }
  }

  lemma ForgetKeeps(f: Fleet, s: State, w: nat, all: bool)
    requires Inv(f, s)
    ensures Inv(f, s.(items := Forget(s.items, w, all)))
  {
    var t := s.(items := Forget(s.items, w, all));
    forall k | 0 <= k < |t.items| ensures Held(f, t, t.items[k]) {
      assert Held(f, s, s.items[k]);
    }
    forall i, k | 0 <= i < k < |t.items| && t.items[i].id == t.items[k].id
      ensures !(Live(t.items[i]) && Live(t.items[k]))
    {
      assert Live(t.items[i]) && Live(t.items[k]) ==> Live(s.items[i]) && Live(s.items[k]);
    }
  }

  lemma QuietKeeps(f: Fleet, s: State, step: Step)
    requires OnTime(f) && Inv(f, s) && Enabled(f, s, step) && (step.Pass? || step.Submit?)
    ensures Inv(f, Exec(f, s, step))
  {
    var t := Exec(f, s, step);
    forall k | 0 <= k < |t.items| ensures Held(f, t, t.items[k]) {
      assert Held(f, s, s.items[k]);
    }
  }

  /** Rows the holder's statements leave alone when the item is finished: the scan has ended. */
  ghost predicate FinishedEnded(s: State) {
    forall k :: 0 <= k < |s.items| && s.items[k].phase.Finished? ==> s.items[k].id < |s.rows| && Ended(s.rows[s.items[k].id])
  }

  ghost predicate EndedStay(s: State, t: State) {
    forall id: ScanId :: id < |s.rows| && Ended(s.rows[id]) ==> id < |t.rows| && Ended(t.rows[id])
  }

  lemma HolderKeeps(f: Fleet, s: State, step: Step)
    requires Inv(f, s) && FinishedEnded(s) && Enabled(f, s, step)
    requires step.Start? || step.MarkRunning? || step.Heartbeat? || step.Close? || step.Leave? || step.Abandon?
    ensures Inv(f, Exec(f, s, step))
  {
    var t := Exec(f, s, step);
    var k := step.item;
    assert Held(f, s, s.items[k]);
    assert t == Touch(s, k, t.rows[s.items[k].id], t.items[k]);
    TouchKeeps(f, s, k, t.rows[s.items[k].id], t.items[k]);
  }

  lemma CancelKeeps(f: Fleet, s: State, k: nat)
    requires Inv(f, s) && Enabled(f, s, CancelTick(k))
    ensures Inv(f, Exec(f, s, CancelTick(k)))
  {
    var x := s.items[k];
    var r := Released(s.rows[x.id], f.workers[x.worker].owner);
    var mid := Touch(s, k, r, x.(phase := Gone));
    assert Held(f, s, x);
    TouchKeeps(f, s, k, r, x.(phase := Gone));
    ForgetKeeps(f, mid, x.worker, false);
    assert Forget(mid.items, x.worker, false) == Forget(s.items, x.worker, false);
  }

  lemma StepKeepsEnded(f: Fleet, s: State, step: Step)
    requires Inv(f, s) && FinishedEnded(s) && Enabled(f, s, step)
    ensures EndedStay(s, Exec(f, s, step)) && FinishedEnded(Exec(f, s, step))
  {
    var t := Exec(f, s, step);
    assert forall k :: 0 <= k < |s.items| ==> Held(f, s, s.items[k]);
    assert EndedStay(s, t);
    forall k | 0 <= k < |t.items| && t.items[k].phase.Finished? ensures t.items[k].id < |t.rows| && Ended(t.rows[t.items[k].id]) {
      assert k < |s.items| && t.items[k].id == s.items[k].id;
    }
  }

  lemma StepKeeps(f: Fleet, s: State, step: Step)
    requires OnTime(f) && Inv(f, s) && FinishedEnded(s) && Enabled(f, s, step)
    ensures Inv(f, Exec(f, s, step))
  {
    match step
    case TickClaim(w) => ClaimKeeps(f, s, w);
    case CancelTick(k) => CancelKeeps(f, s, k);
    case Crash(w) => ForgetKeeps(f, s, w, true);
    case Pass(_) => QuietKeeps(f, s, step);
    case Submit => QuietKeeps(f, s, step);
    case _ => HolderKeeps(f, s, step);
  }

  lemma {:induction false} RunKeeps(f: Fleet, states: seq<State>, steps: seq<Step>, i: nat)
    requires OnTime(f) && IsRun(f, states, steps) && i < |states|
    ensures Inv(f, states[i]) && FinishedEnded(states[i])
    ensures forall k :: 0 < k <= i ==> EndedStay(states[k - 1], states[k])
  {
    if i > 0 {
      RunKeeps(f, states, steps, i - 1);
      StepKeeps(f, states[i - 1], steps[i - 1]);
      StepKeepsEnded(f, states[i - 1], steps[i - 1]);
    }
  }

  /** While heartbeats land on time a scan being executed has one executor, no claim can take
      it, and its next heartbeat finds the claim still its own. */
  lemma OneExecutor(f: Fleet, states: seq<State>, steps: seq<Step>, i: nat, a: nat, b: nat)
    requires OnTime(f) && IsRun(f, states, steps) && i < |states|
    requires a < |states[i].items| && b < |states[i].items|
    requires Live(states[i].items[a])
    ensures Live(states[i].items[b]) && states[i].items[a].id == states[i].items[b].id ==> a == b
    ensures forall w :: 0 <= w < |f.workers| ==> states[i].items[a].id !in Batch(f, states[i], w)
    ensures var x := states[i].items[a];
            x.worker < |f.workers| && x.id < |states[i].rows| && OwnedBy(states[i].rows[x.id], f.workers[x.worker].owner)
  {
    RunKeeps(f, states, steps, i);
    assert Held(f, states[i], states[i].items[a]);
  }

  lemma {:induction false} EndedAlong(states: seq<State>, i: nat, k: nat, id: ScanId)
    requires forall m :: 0 < m < |states| ==> EndedStay(states[m - 1], states[m])
    requires i <= k < |states| && id < |states[i].rows| && Ended(states[i].rows[id])
    ensures id < |states[k].rows| && Ended(states[k].rows[id])
    decreases k
  {
    if i < k {
      EndedAlong(states, i, k - 1, id);
      assert EndedStay(states[k - 1], states[k]);
    }
  }

  /** While heartbeats land on time a completed or failed scan stays so and is never claimed
      again. */
  lemma EndedIsForever(f: Fleet, states: seq<State>, steps: seq<Step>, i: nat, k: nat, id: ScanId)
    requires OnTime(f) && IsRun(f, states, steps) && i <= k < |states|
    requires id < |states[i].rows| && Ended(states[i].rows[id])
    ensures id < |states[k].rows| && Ended(states[k].rows[id])
    ensures forall w :: 0 <= w < |f.workers| ==> id !in Batch(f, states[k], w)
  {
    RunKeeps(f, states, steps, |states| - 1);
    EndedAlong(states, i, k, id);
  }

  // ----- how a scan ends -----

  /** The worker that runs the scan closes it, as completed or as failed. */
  predicate Closes(s: State, step: Step, id: ScanId, ok: bool) {
    step.Close? && step.item < |s.items| && s.items[step.item].id == id && step.ok == ok
  }

  predicate HasStatus(s: State, id: ScanId, status: ScanStatus) {
    id < |s.rows| && s.rows[id].status == status
  }

  /** A step completes a scan, or fails it, by closing it so, and undoes neither. */
  ghost predicate EndTraced(s: State, step: Step, t: State, id: ScanId) {
    && (HasStatus(t, id, Completed) <==> HasStatus(s, id, Completed) || Closes(s, step, id, true))
    && (HasStatus(t, id, Failed) <==> HasStatus(s, id, Failed) || Closes(s, step, id, false))
  }

  lemma EndStep(f: Fleet, s: State, step: Step, id: ScanId)
    requires Inv(f, s) && FinishedEnded(s) && Enabled(f, s, step)
    ensures EndTraced(s, step, Exec(f, s, step), id)
  {
    assert forall k :: 0 <= k < |s.items| ==> Held(f, s, s.items[k]);
  }

  ghost predicate EndsTraced(states: seq<State>, steps: seq<Step>, id: ScanId) {
    |states| == |steps| + 1 && states[0].rows == []
    && forall m :: 0 <= m < |steps| ==> EndTraced(states[m], steps[m], states[m + 1], id)
  }

  lemma RunTracesEnds(f: Fleet, states: seq<State>, steps: seq<Step>, id: ScanId)
    requires OnTime(f) && IsRun(f, states, steps)
    ensures EndsTraced(states, steps, id)
  {
    forall m | 0 <= m < |steps| ensures EndTraced(states[m], steps[m], states[m + 1], id) {
      RunKeeps(f, states, steps, m);
      assert Next(f, states[m], steps[m], states[m + 1]);
      EndStep(f, states[m], steps[m], id);
    }
  }

  lemma {:induction false} EndedByClose(states: seq<State>, steps: seq<Step>, i: nat, id: ScanId)
    requires EndsTraced(states, steps, id) && i < |states|
    ensures HasStatus(states[i], id, Completed) <==> exists m :: 0 <= m < i && Closes(states[m], steps[m], id, true)
    ensures HasStatus(states[i], id, Failed) <==> exists m :: 0 <= m < i && Closes(states[m], steps[m], id, false)
  {
    if i > 0 {
      EndedByClose(states, steps, i - 1, id);
      assert EndTraced(states[i - 1], steps[i - 1], states[i - 1 + 1], id);
    }
  }

  /** While heartbeats land on time a scan is completed if and only if some worker has closed it
      as completed, and failed if and only if some worker has closed it as failed. */
  lemma EndsAsClosed(f: Fleet, states: seq<State>, steps: seq<Step>, i: nat, id: ScanId)
    requires OnTime(f) && IsRun(f, states, steps) && i < |states| && id < |states[i].rows|
    ensures states[i].rows[id].status.Completed? <==> exists m :: 0 <= m < i && Closes(states[m], steps[m], id, true)
    ensures states[i].rows[id].status.Failed? <==> exists m :: 0 <= m < i && Closes(states[m], steps[m], id, false)
  {
    RunTracesEnds(f, states, steps, id);
    EndedByClose(states, steps, i, id);
  }

  /** Whatever is not pending has been started, no later than now; what a worker has taken is
      not pending. */
  ghost predicate StartedOk(s: State) {
    && (forall id: ScanId :: id < |s.rows| ==> StartTimeOk(s.rows[id], s.now))
    && (forall k :: 0 <= k < |s.items| ==> s.items[k].id < |s.rows| && !s.rows[s.items[k].id].status.Pending?)
  }

  predicate StartTimeOk(r: Scan, now: Time) {
    (!r.status.Pending? ==> r.startedAt.Some?) && (r.startedAt.Some? ==> r.startedAt.value <= now)
  }

  lemma ClaimKeepsStarted(s: State, ids: seq<ScanId>, w: nat, owner: string)
    requires StartedOk(s) && forall k :: 0 <= k < |ids| ==> ids[k] < |s.rows|
    ensures StartedOk(HandOut(s, ids, w, owner))
  {
    var t := HandOut(s, ids, w, owner);
    forall id: ScanId | id < |t.rows| ensures StartTimeOk(t.rows[id], t.now) {
      assert StartTimeOk(s.rows[id], s.now);
    }
    forall k | 0 <= k < |t.items| ensures t.items[k].id < |t.rows| && !t.rows[t.items[k].id].status.Pending? {
      if k >= |s.items| {
        assert t.items[k].id == ids[k - |s.items|] && t.items[k].id in ids;
      } else {
        assert t.items[k] == s.items[k];
      }
    }
  }

  lemma StepKeepsStarted(f: Fleet, s: State, step: Step, t: State)
    requires StartedOk(s) && Next(f, s, step, t)
    ensures StartedOk(t)
  {
    if step.TickClaim? {
      ClaimKeepsStarted(s, Batch(f, s, step.worker), step.worker, f.workers[step.worker].owner);
    } else {
      forall id: ScanId | id < |t.rows| ensures StartTimeOk(t.rows[id], t.now) {
        assert id < |s.rows| ==> StartTimeOk(s.rows[id], s.now);
      }
    }
  }

  /** In every run, heartbeats on time or not, a scan that is no longer pending has a start time,
      which is not in the future. */
  lemma {:induction false} StartedScansHaveATime(f: Fleet, states: seq<State>, steps: seq<Step>, i: nat)
    requires IsRun(f, states, steps) && i < |states|
    ensures StartedOk(states[i])
    decreases i
  {
    if i > 0 {
      StartedScansHaveATime(f, states, steps, i - 1);
      StepKeepsStarted(f, states[i - 1], steps[i - 1], states[i]);
    }
  }

  // ----- which scans a claim takes -----

  /** Nobody has started the scan, or whoever did has let its claim lapse or given it back. */
  predicate UpForGrabs(r: Scan, now: Time, lease: nat) {
    || r.status.Pending?
    || (r.status.Running? && (match r.claimedAt case None => true case Some(at) => at + lease < now))
  }

  /** The scan is among those a tick has just taken. */
  predicate TakenBetween(s: State, t: State, id: ScanId) {
    exists k :: |s.items| <= k < |t.items| && t.items[k].id == id
  }

  /** What a claim writes into the row. */
  function Started(r: Scan, owner: string, now: Time): Scan {
    Scan(Running, Some(owner), Some(now), Some(if r.startedAt.Some? then r.startedAt.value else now))
  }

  ghost predicate NewItems(s: State, ids: seq<ScanId>, w: nat, t: State) {
    |t.items| == |s.items| + |ids|
    && (forall k :: 0 <= k < |s.items| ==> t.items[k] == s.items[k])
    && (forall k :: 0 <= k < |ids| ==> t.items[|s.items| + k] == Item(w, ids[k], s.now, Waiting))
  }

  lemma HandOutTakes(s: State, ids: seq<ScanId>, w: nat, owner: string, t: State, id: ScanId)
    requires t == HandOut(s, ids, w, owner) && id < |s.rows|
    ensures NewItems(s, ids, w, t) && (TakenBetween(s, t, id) <==> id in ids)
    ensures |t.rows| == |s.rows| && t.rows[id] == if id in ids then Started(s.rows[id], owner, s.now) else s.rows[id]
  {
    if id in ids {
      var k :| 0 <= k < |ids| && ids[k] == id;
      assert t.items[|s.items| + k].id == id;
    }
    if TakenBetween(s, t, id) {
      var k :| |s.items| <= k < |t.items| && t.items[k].id == id;
      assert t.items[|s.items| + (k - |s.items|)] == Item(w, ids[k - |s.items|], s.now, Waiting);
    }
  }

  /** A scan up for grabs is left only when the free slots are filled with older ones, and no
      other is taken. */
  ghost predicate TakenIfUp(s: State, t: State, id: ScanId, up: bool, room: int) {
    && (TakenBetween(s, t, id) ==> up)
    && (up && !TakenBetween(s, t, id) && room > 0 ==>
          |t.items| - |s.items| == room && forall k :: |s.items| <= k < |t.items| ==> t.items[k].id < id)
  }

  /** A tick of a worker takes only scans that are pending, or running under a claim that is
      absent or older than the lease, and leaves one only when its free slots are filled with
      older ones; what it takes is running, claimed now by this worker, and started now unless
      it had been started before. */
  lemma TickTakes(f: Fleet, s: State, w: nat, t: State, id: ScanId)
    requires w < |f.workers| && Next(f, s, TickClaim(w), t) && id < |s.rows|
    ensures TakenIfUp(s, t, id, UpForGrabs(s.rows[id], s.now, f.lease), f.workers[w].slots - Tokens(s.items, w, false))
    ensures |t.rows| == |s.rows|
    ensures t.rows[id] == if TakenBetween(s, t, id) then Started(s.rows[id], f.workers[w].owner, s.now) else s.rows[id]
    ensures forall k :: |s.items| <= k < |t.items| ==> t.items[k].worker == w && t.items[k].phase.Waiting? && t.items[k].beat == s.now
  {
    var ids := Batch(f, s, w);
    var room := f.workers[w].slots - Tokens(s.items, w, false);
    HandOutTakes(s, ids, w, f.workers[w].owner, t, id);
    NewItemsTold(s, ids, w, t);
    if room > 0 {
      BatchTakes(s.rows, s.now, f.lease, room, id);
    }
  }

  lemma NewItemsTold(s: State, ids: seq<ScanId>, w: nat, t: State)
    requires NewItems(s, ids, w, t)
    ensures forall k :: |s.items| <= k < |t.items| ==> t.items[k] == Item(w, ids[k - |s.items|], s.now, Waiting)
  {
    forall k | |s.items| <= k < |t.items| ensures t.items[k] == Item(w, ids[k - |s.items|], s.now, Waiting) {
      assert t.items[|s.items| + (k - |s.items|)] == Item(w, ids[k - |s.items|], s.now, Waiting);
    }
  }

  lemma BatchTakes(rows: seq<Scan>, now: Time, lease: nat, room: nat, id: ScanId)
    requires id < |rows|
    ensures var ids := ClaimBatch(rows, now - lease, room);
            && (id in ids ==> UpForGrabs(rows[id], now, lease))
            && (UpForGrabs(rows[id], now, lease) && id !in ids ==> |ids| == room && forall k :: 0 <= k < |ids| ==> ids[k] < id)
  {
    FirstMatchingMeaning(rows, (r: Scan) => Claimable(r, now - lease), room, |rows|);
  }

  /** Refreshing, releasing and closing a scan, by who asks for it: only the owner of a running
      scan refreshes it, or gives it back to be taken by anybody at once. */
  lemma OnlyTheOwner(r: Scan, owner: string, now: Time, lease: nat)
    ensures var owns := r.status.Running? && r.claimedBy == Some(owner);
            && Beaten(r, owner, now) == (if owns then r.(claimedAt := Some(now)) else r)
            && Released(r, owner) == (if owns then r.(claimedBy := None, claimedAt := None) else r)
            && (owns ==> !UpForGrabs(Beaten(r, owner, now), now, lease) && UpForGrabs(Released(r, owner), now, lease))
    ensures forall ok :: Closed(r, ok) == Scan(if ok then Completed else Failed, None, None, r.startedAt)
    ensures forall ok :: !UpForGrabs(Closed(r, ok), now, lease)
  {
  }

  lemma ClaimOnly(f: Fleet, s: State, w: nat)
    requires w < |f.workers| && Enabled(f, s, TickClaim(w)) && Tokens(s.items, w, false) < f.workers[w].slots
    requires |s.rows| == 1 && Claimable(s.rows[0], s.now - f.lease)
    ensures Exec(f, s, TickClaim(w))
            == State([Claimed(s.rows[0], f.workers[w].owner, s.now)], s.now, s.items + [Item(w, 0, s.now, Waiting)])
  {
    var room := f.workers[w].slots - Tokens(s.items, w, false);
    AllMatchingChosen(s.rows, (r: Scan) => Claimable(r, s.now - f.lease), room, 0);
    assert Batch(f, s, w) == [0];
  }

  lemma RunExtends(f: Fleet, states: seq<State>, steps: seq<Step>, step: Step, t: State)
    requires IsRun(f, states, steps) && Next(f, states[|steps|], step, t)
    ensures IsRun(f, states + [t], steps + [step])
  {
    forall i | 0 <= i < |steps| + 1
      ensures Next(f, (states + [t])[i], (steps + [step])[i], (states + [t])[i + 1])
    {
      if i < |steps| {
        assert Next(f, states[i], steps[i], states[i + 1]);
      }
    }
  }

  /** One scan, submitted, claimed by the first worker and past its semaphore. */
  function Executed(f: Fleet, n: nat): State
    requires n < 4 && |f.workers| >= 1
  {
    match n
    case 0 => State([], 0, [])
    case 1 => State([QUEUED], 0, [])
    case 2 => State([Claimed(QUEUED, f.workers[0].owner, 0)], 0, [Item(0, 0, 0, Waiting)])
    case 3 => State([Claimed(QUEUED, f.workers[0].owner, 0)], 0, [Item(0, 0, 0, Executing)])
  }

  lemma SubmitStep(f: Fleet)
    requires |f.workers| >= 1
    ensures Next(f, Executed(f, 0), Submit, Executed(f, 1))
  {
  }

  lemma ClaimStep(f: Fleet)
    requires |f.workers| >= 1 && f.workers[0].slots > 0
    ensures Next(f, Executed(f, 1), TickClaim(0), Executed(f, 2))
  {
    var s := State([QUEUED], 0, []);
    assert s == Executed(f, 1);
    assert Enabled(f, s, TickClaim(0));
    ClaimOnly(f, s, 0);
    assert s.items + [Item(0, 0, 0, Waiting)] == [Item(0, 0, 0, Waiting)];
  }

  lemma StartStep(f: Fleet)
    requires |f.workers| >= 1 && f.workers[0].slots > 0
    ensures Next(f, Executed(f, 2), Start(0), Executed(f, 3))
  {
    var items := [Item(0, 0, 0, Waiting)];
    assert items[..0] == [];
    assert Tokens(items, 0, false) == 0;
    assert items[0 := Item(0, 0, 0, Executing)] == [Item(0, 0, 0, Executing)];
  }

  /** The timing bound is exact: when a heartbeat may land after its lease, two workers can
      hold the same scan. */
  lemma LateHeartbeatIsStolen(f: Fleet) returns (states: seq<State>, steps: seq<Step>)
    requires !OnTime(f) && |f.workers| >= 2 && f.workers[0].slots > 0 && f.workers[1].slots > 0
    ensures IsRun(f, states, steps)
    ensures var s := states[|steps|];
            |s.items| == 2 && s.items[0].phase.Executing? && Live(s.items[1]) && s.items[0].id == s.items[1].id
            && s.items[0].worker != s.items[1].worker
  {
    states, steps := StolenRun(f);
  }

  lemma StolenRun(f: Fleet) returns (states: seq<State>, steps: seq<Step>)
    requires !OnTime(f) && |f.workers| >= 2 && f.workers[0].slots > 0 && f.workers[1].slots > 0
    ensures IsRun(f, states, steps)
    ensures states[|steps|].items == [Item(0, 0, 0, Executing), Item(1, 0, f.lease + 1, Waiting)]
    ensures |states[|steps|].rows| == 1 && states[|steps|].now == f.lease + 1
  {
    SubmitStep(f);
    ClaimStep(f);
    StartStep(f);
    states, steps := [Executed(f, 0)], [];
    RunExtends(f, states, steps, Submit, Executed(f, 1));
    states, steps := states + [Executed(f, 1)], steps + [Submit];
    RunExtends(f, states, steps, TickClaim(0), Executed(f, 2));
    states, steps := states + [Executed(f, 2)], steps + [TickClaim(0)];
    RunExtends(f, states, steps, Start(0), Executed(f, 3));
    states, steps := states + [Executed(f, 3)], steps + [Start(0)];
    var t := ThenStolen(f, states, steps);
    states, steps := states + [Executed(f, 3).(now := f.lease + 1), t], steps + [Pass(f.lease + 1), TickClaim(1)];
  }

  lemma ThenStolen(f: Fleet, states: seq<State>, steps: seq<Step>) returns (t: State)
    requires !OnTime(f) && |f.workers| >= 2 && f.workers[1].slots > 0
    requires IsRun(f, states, steps) && states[|steps|] == Executed(f, 3)
    ensures IsRun(f, states + [Executed(f, 3).(now := f.lease + 1), t], steps + [Pass(f.lease + 1), TickClaim(1)])
    ensures t.items == [Item(0, 0, 0, Executing), Item(1, 0, f.lease + 1, Waiting)]
    ensures |t.rows| == 1 && t.now == f.lease + 1
  {
    var late := Executed(f, 3).(now := f.lease + 1);
    LateClaim(f, late);
    t := Exec(f, late, TickClaim(1));
    RunExtends(f, states, steps, Pass(f.lease + 1), late);
    RunExtends(f, states + [late], steps + [Pass(f.lease + 1)], TickClaim(1), t);
    assert states + [late] + [t] == states + [late, t];
    assert steps + [Pass(f.lease + 1)] + [TickClaim(1)] == steps + [Pass(f.lease + 1), TickClaim(1)];
  }

  lemma LateClaim(f: Fleet, late: State)
    requires !OnTime(f) && |f.workers| >= 2 && f.workers[1].slots > 0
    requires late == Executed(f, 3).(now := f.lease + 1)
    ensures Next(f, Executed(f, 3), Pass(f.lease + 1), late)
    ensures Enabled(f, late, TickClaim(1))
    ensures Exec(f, late, TickClaim(1)).items == [Item(0, 0, 0, Executing), Item(1, 0, f.lease + 1, Waiting)]
  {
    assert Tokens(late.items, 1, false) == 0;
    ClaimOnly(f, late, 1);
  }

  lemma ThiefFinishes(f: Fleet, s: State) returns (u: State, t: State)
    requires |f.workers| >= 2 && f.workers[1].slots > 0 && |s.rows| == 1
    requires s.items == [Item(0, 0, 0, Executing), Item(1, 0, f.lease + 1, Waiting)]
    ensures Next(f, s, Start(1), u) && Next(f, u, Close(1, true), t)
    ensures |t.rows| == 1 && t.rows[0].status.Completed? && t.items == [Item(0, 0, 0, Executing), Item(1, 0, f.lease + 1, Finished)]
  {
    var one := [Item(0, 0, 0, Executing)];
    assert one[..0] == [] && Tokens(one, 1, false) == 0;
    assert s.items[..|s.items| - 1] == one;
    u := Exec(f, s, Start(1));
    t := Exec(f, u, Close(1, true));
  }

  /** And nothing tells the one who was late: its statement that marks the scan as running asks
      for the id only, and reopens a scan that the other one has completed. */
  lemma LateWorkerReopens(f: Fleet) returns (states: seq<State>, steps: seq<Step>)
    requires !OnTime(f) && |f.workers| >= 2 && f.workers[0].slots > 0 && f.workers[1].slots > 0
    ensures IsRun(f, states, steps) && |steps| >= 1 && steps[|steps| - 1] == MarkRunning(0)
    ensures |states[|steps| - 1].rows| == 1 && states[|steps| - 1].rows[0].status.Completed?
    ensures |states[|steps|].rows| == 1 && states[|steps|].rows[0].status.Running?
  {
    states, steps := StolenRun(f);
    var u, v := ThiefFinishes(f, states[|steps|]);
    var t := Exec(f, v, MarkRunning(0));
    RunExtends(f, states, steps, Start(1), u);
    states, steps := states + [u], steps + [Start(1)];
    RunExtends(f, states, steps, Close(1, true), v);
    states, steps := states + [v], steps + [Close(1, true)];
    RunExtends(f, states, steps, MarkRunning(0), t);
    states, steps := states + [t], steps + [MarkRunning(0)];
  }
}
