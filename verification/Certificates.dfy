/** Certificate rows across rescans, revocation checks, catalog imports and Vault updates
    (internal/store/store.go, internal/store/certificates.go, internal/lifecycle/lifecycle.go). */
module Certificates {
  import opened Wrappers
  import opened Backoff

  type Fingerprint = string

  datatype Lifecycle = Valid | ExpiringSoon | Expired | Revoked
  datatype Marker = InVault | Via(source: string)
  datatype Managed = Unmanaged | Imported | ManagedInVault

  datatype CertRow = CertRow(status: Lifecycle, days: int, marker: Option<Marker>, managed: Managed,
                             mount: Option<string>, issuerRef: Option<string>)

  datatype CertEvent =
    | Discovered(fp: Fingerprint)
    | BlindSpot(fp: Fingerprint)
    | Expiring(fp: Fingerprint)
    | RevokedEvent(fp: Fingerprint, source: string)

  datatype Db = Db(rows: map<Fingerprint, CertRow>, events: seq<CertEvent>)

  /** Division of durations as Go truncates it, toward zero. */
  function TruncDiv(a: int, b: int): int
    requires b > 0
  {
    if a >= 0 then a / b else -((-a) / b)
  }

  /** Whole days left, or, negative, whole days past. */
  function DaysLeft(notAfter: Time, now: Time): (d: int)
    ensures notAfter >= now ==> d >= 0 && d * DAY <= notAfter - now < (d + 1) * DAY
    ensures notAfter < now ==> d <= 0 && d * DAY >= notAfter - now > (d - 1) * DAY
  {
    TruncDiv(notAfter - now, DAY)
  }

  /** lifecycle.Compute for a certificate not known to be revoked. */
  function ComputeStatus(notAfter: Time, now: Time, window: int): (s: Lifecycle)
    ensures !s.Revoked?
    ensures s.Expired? <==> notAfter < now
    ensures window >= 0 ==> (s.ExpiringSoon? <==> now <= notAfter < now + (window + 1) * DAY)
  {
    if notAfter < now then Expired
    else if DaysLeft(notAfter, now) <= window then ExpiringSoon
    else Valid
  }

  datatype ManagedUpdate = ManagedUpdate(mount: string, issuerRef: Option<string>, revoked: bool)

  datatype Step =
    | Rescan(fp: Fingerprint, notAfter: Time, now: Time, window: int)
    | MarkRevoked(fp: Fingerprint, source: string)
    | Import(fp: Fingerprint)
    | VaultUpdate(fp: Fingerprint, u: ManagedUpdate)
    | Delete(fp: Fingerprint)

  // ----- one row -----

  function Rescanned(r: Option<CertRow>, notAfter: Time, now: Time, window: int): CertRow {
    var status, days := ComputeStatus(notAfter, now, window), DaysLeft(notAfter, now);
    match r
    case None => CertRow(status, days, None, Unmanaged, None, None)
    case Some(row) => row.(days := days, status := if row.marker.Some? then row.status else status)
  }

  function VaultUpdated(r: CertRow, u: ManagedUpdate): CertRow {
    CertRow(if u.revoked then Revoked else r.status,
            r.days,
            if u.revoked then Some(InVault) else if r.marker == Some(InVault) then None else r.marker,
            ManagedInVault,
            Some(u.mount),
            u.issuerRef)
  }

  function ImportedRow(r: CertRow): CertRow {
    if r.managed.ManagedInVault? then r else r.(managed := Imported)
  }

  function RevokedRow(r: CertRow, source: string): CertRow {
    r.(status := Revoked, marker := Some(Via(source)))
  }

  function Lookup(rows: map<Fingerprint, CertRow>, fp: Fingerprint): Option<CertRow> {
    if fp in rows then Some(rows[fp]) else None
  }

  /** What a step does to the row it names. */
  function RowAfter(r: Option<CertRow>, step: Step): Option<CertRow> {
    match step
    case Rescan(_, notAfter, now, window) => Some(Rescanned(r, notAfter, now, window))
    case Delete(_) => None
    case MarkRevoked(_, source) => if r.Some? then Some(RevokedRow(r.value, source)) else None
    case Import(_) => if r.Some? then Some(ImportedRow(r.value)) else None
    case VaultUpdate(_, u) => if r.Some? then Some(VaultUpdated(r.value, u)) else None
  }

  /** The catalogue events of a rescan look at the scan's status, not at the stored one. */
  function Announced(r: Option<CertRow>, step: Step): seq<CertEvent> {
    match step
    case Rescan(fp, notAfter, now, window) =>
      (if r.None? then [Discovered(fp), BlindSpot(fp)] else [])
      + (if ComputeStatus(notAfter, now, window).ExpiringSoon? && (r.None? || !r.value.status.ExpiringSoon?)
         then [Expiring(fp)] else [])
    case MarkRevoked(fp, source) => if r.Some? then [RevokedEvent(fp, source)] else []
    case _ => []
  }

  function Exec(db: Db, step: Step): Db {
    var before := Lookup(db.rows, step.fp);
    var after := RowAfter(before, step);
    Db(if after.Some? then db.rows[step.fp := after.value] else db.rows - {step.fp},
       db.events + Announced(before, step))
  }

  // ----- the store -----

  datatype ImportReply = ImportDone | ImportNotFound | ImportManagedByVault

  class CertificateStore {
    var rows: map<Fingerprint, CertRow>
    var events: seq<CertEvent>

    constructor ()
      ensures Contents() == Db(map[], [])
    {
      rows, events := map[], [];
    }

    function Contents(): Db
      reads this
    {
      Db(rows, events)
    }

    method UpsertCertificate(fp: Fingerprint, notAfter: Time, now: Time, window: int)
      modifies this
      ensures Contents() == Exec(old(Contents()), Rescan(fp, notAfter, now, window))
    {
      var status, days := ComputeStatus(notAfter, now, window), DaysLeft(notAfter, now);
      var existed := fp in rows;
      var wasExpiring := existed && rows[fp].status.ExpiringSoon?;
      if !existed {
        rows := rows[fp := CertRow(status, days, None, Unmanaged, None, None)];
        events := events + [Discovered(fp), BlindSpot(fp)];
      } else if rows[fp].marker.Some? {
        rows := rows[fp := rows[fp].(days := days)];
      } else {
        rows := rows[fp := rows[fp].(days := days, status := status)];
      }
      if status.ExpiringSoon? && !wasExpiring {
        events := events + [Expiring(fp)];
      }
    }

    method MarkRevoked(fp: Fingerprint, source: string) returns (found: bool)
      modifies this
      ensures found <==> fp in old(rows)
      ensures Contents() == Exec(old(Contents()), Step.MarkRevoked(fp, source))
    {
      found := fp in rows;
      if found {
        rows := rows[fp := rows[fp].(status := Revoked, marker := Some(Via(source)))];
        events := events + [RevokedEvent(fp, source)];
      }
      assert found || rows - {fp} == rows;
    }

    method SetManagedStatus(fp: Fingerprint) returns (reply: ImportReply)
      modifies this`rows
      ensures Contents() == Exec(old(Contents()), Import(fp))
      ensures reply.ImportNotFound? <==> fp !in old(rows)
      ensures reply.ImportManagedByVault? <==> fp in old(rows) && old(rows)[fp].managed.ManagedInVault?
      ensures reply.ImportDone? ==> fp in rows && rows[fp].managed.Imported?
    {
      if fp in rows && !rows[fp].managed.ManagedInVault? {
        rows := rows[fp := rows[fp].(managed := Imported)];
        return ImportDone;
      }
      if fp !in rows {
        assert rows - {fp} == rows;
        return ImportNotFound;
      }
      assert rows[fp := rows[fp]] == rows;
      reply := ImportManagedByVault;
    }

    method UpdateManagedStatusByFingerprint(fp: Fingerprint, u: ManagedUpdate) returns (updated: bool)
      modifies this`rows
      ensures updated <==> fp in old(rows)
      ensures Contents() == Exec(old(Contents()), VaultUpdate(fp, u))
    {
      updated := fp in rows;
      if updated {
        var r := rows[fp];
        var status := if u.revoked then Revoked else r.status;
        var marker := r.marker;
        if u.revoked {
          marker := Some(InVault);
        } else if marker == Some(InVault) {
          marker := None;
        }
        rows := rows[fp := r.(managed := ManagedInVault, mount := Some(u.mount), issuerRef := u.issuerRef,
                              status := status, marker := marker)];
      }
      assert updated || rows - {fp} == rows;
    }

    method CountByManagedStatus() returns (managed: nat, discovered: nat)
      ensures managed == |ManagedSet(rows)| && discovered == |rows|
    {
      managed := |set fp | fp in rows && rows[fp].managed.ManagedInVault?|;
      discovered := |rows|;
    }
  }

  function ManagedSet(rows: map<Fingerprint, CertRow>): set<Fingerprint> {
    set fp | fp in rows && rows[fp].managed.ManagedInVault?
  }

  // ----- runs -----

  ghost predicate IsRun(states: seq<Db>, steps: seq<Step>) {
    |states| == |steps| + 1 && states[0] == Db(map[], [])
    && forall i :: 0 <= i < |steps| ==> states[i + 1] == Exec(states[i], steps[i])
  }

  lemma StepOnRow(db: Db, step: Step, fp: Fingerprint)
    ensures Lookup(Exec(db, step).rows, fp)
            == if step.fp == fp then RowAfter(Lookup(db.rows, fp), step) else Lookup(db.rows, fp)
  {
  }

  ghost predicate RowOk(db: Db, fp: Fingerprint) {
    fp in db.rows ==>
      && (db.rows[fp].marker.Some? ==> db.rows[fp].status.Revoked?)
      && (db.rows[fp].marker.Some? && db.rows[fp].marker.value.Via? ==>
            RevokedEvent(fp, db.rows[fp].marker.value.source) in db.events)
      && (db.rows[fp].managed.ManagedInVault? <==> db.rows[fp].mount.Some?)
  }

  lemma {:induction false} RunKeeps(states: seq<Db>, steps: seq<Step>, i: nat, fp: Fingerprint)
    requires IsRun(states, steps) && i < |states|
    ensures RowOk(states[i], fp)
  {
    if i > 0 {
      RunKeeps(states, steps, i - 1, fp);
      StepOnRow(states[i - 1], steps[i - 1], fp);
    }
  }

  /** In every run a revocation marker implies status revoked, and a revoked_via marker has its
      cert.revoked event in the outbox. */
  lemma MarkedIsRevoked(states: seq<Db>, steps: seq<Step>, i: nat, fp: Fingerprint)
    requires IsRun(states, steps) && i < |states| && fp in states[i].rows && states[i].rows[fp].marker.Some?
    ensures states[i].rows[fp].status.Revoked?
    ensures forall source :: states[i].rows[fp].marker == Some(Via(source)) ==> RevokedEvent(fp, source) in states[i].events
  {
    RunKeeps(states, steps, i, fp);
  }

  predicate Revokes(step: Step, fp: Fingerprint) {
    step.fp == fp && (step.MarkRevoked? || (step.VaultUpdate? && step.u.revoked))
  }

  /** Vault takes back its own marker. */
  predicate Reinstates(step: Step, fp: Fingerprint) {
    step.VaultUpdate? && step.fp == fp && !step.u.revoked
  }

  predicate Deletes(step: Step, fp: Fingerprint) {
    step == Delete(fp)
  }

  ghost predicate MarkerIs(db: Db, fp: Fingerprint, m: Option<Marker>) {
    fp in db.rows && db.rows[fp].marker == m
  }

  ghost predicate IsRevoked(db: Db, fp: Fingerprint) {
    fp in db.rows && db.rows[fp].status.Revoked?
  }

  /** revoked_via markers outlive rescans, imports and every Vault report of "not revoked". */
  lemma {:induction false} ViaMarkerSurvives(states: seq<Db>, steps: seq<Step>, i: nat, k: nat, fp: Fingerprint, source: string)
    requires IsRun(states, steps) && i <= k < |states| && MarkerIs(states[i], fp, Some(Via(source)))
    requires forall m :: i <= m < k ==> !Revokes(steps[m], fp) && !Deletes(steps[m], fp)
    ensures MarkerIs(states[k], fp, Some(Via(source))) && IsRevoked(states[k], fp)
    decreases k
  {
    RunKeeps(states, steps, k, fp);
    if i < k {
      ViaMarkerSurvives(states, steps, i, k - 1, fp, source);
      StepOnRow(states[k - 1], steps[k - 1], fp);
    }
  }

  lemma {:induction false} UnmarkedStays(states: seq<Db>, steps: seq<Step>, i: nat, k: nat, fp: Fingerprint)
    requires IsRun(states, steps) && i <= k < |states| && MarkerIs(states[i], fp, None)
    requires forall m :: i <= m < k ==> !Revokes(steps[m], fp) && !Deletes(steps[m], fp)
    ensures MarkerIs(states[k], fp, None)
    decreases k
  {
    if i < k {
      UnmarkedStays(states, steps, i, k - 1, fp);
      StepOnRow(states[k - 1], steps[k - 1], fp);
    }
  }

  /** Vault clears its own marker at r, and the certificate is rescanned at s before anything
      revokes it again. */
  ghost predicate ClearedThenRescanned(states: seq<Db>, steps: seq<Step>, fp: Fingerprint, i: nat, k: nat, r: nat, s: nat)
    requires |states| == |steps| + 1 && k <= |steps|
  {
    && i <= r < s < k
    && Reinstates(steps[r], fp) && MarkerIs(states[r], fp, Some(InVault))
    && steps[s].Rescan? && steps[s].fp == fp
    && forall m :: r < m < s ==> !Revokes(steps[m], fp)
  }

  /** Where a revoked status stands at k: marked, or unmarked since Vault cleared its marker. */
  ghost predicate ClearedAt(states: seq<Db>, steps: seq<Step>, fp: Fingerprint, i: nat, k: nat, r: nat)
    requires |states| == |steps| + 1 && k <= |steps|
  {
    && i <= r < k
    && Reinstates(steps[r], fp) && MarkerIs(states[r], fp, Some(InVault))
    && forall m :: r < m < k ==> !Revokes(steps[m], fp)
  }

  lemma StandsStep(states: seq<Db>, steps: seq<Step>, i: nat, k: nat, fp: Fingerprint, r: nat)
    requires IsRun(states, steps) && i < k < |states| && !Deletes(steps[k - 1], fp)
    requires RowOk(states[k - 1], fp) && IsRevoked(states[k - 1], fp)
    requires states[k - 1].rows[fp].marker.None? ==> ClearedAt(states, steps, fp, i, k - 1, r)
    requires !ClearedThenRescanned(states, steps, fp, i, k, r, k - 1)
    ensures IsRevoked(states[k], fp)
    ensures states[k].rows[fp].marker.None? && states[k - 1].rows[fp].marker.None? ==> ClearedAt(states, steps, fp, i, k, r)
    ensures states[k].rows[fp].marker.None? && states[k - 1].rows[fp].marker.Some? ==> ClearedAt(states, steps, fp, i, k, k - 1)
  {
    StepOnRow(states[k - 1], steps[k - 1], fp);
  }

  lemma {:induction false} StandsRevoked(states: seq<Db>, steps: seq<Step>, i: nat, k: nat, fp: Fingerprint) returns (r: nat)
    requires IsRun(states, steps) && i <= k < |states|
    requires fp in states[i].rows && states[i].rows[fp].marker.Some?
    requires forall m :: i <= m < k ==> !Deletes(steps[m], fp)
    requires forall r: nat, s: nat :: !ClearedThenRescanned(states, steps, fp, i, k, r, s)
    ensures IsRevoked(states[k], fp)
    ensures states[k].rows[fp].marker.None? ==> ClearedAt(states, steps, fp, i, k, r)
    decreases k
  {
    if i < k {
      var before := k - 1;
      forall r: nat, s: nat ensures !ClearedThenRescanned(states, steps, fp, i, before, r, s) {
        assert !ClearedThenRescanned(states, steps, fp, i, k, r, s);
      }
      r := StandsRevoked(states, steps, i, before, fp);
      RunKeeps(states, steps, before, fp);
      StandsStep(states, steps, i, k, fp, r);
      if states[before].rows[fp].marker.Some? {
        r := before;
      }
    } else {
      RunKeeps(states, steps, k, fp);
      r := 0;
    }
  }

  /** Exactly when a recorded revocation is lost: between i and k some state shows the
      certificate as not revoked if and only if Vault cleared its own marker and a rescan
      followed before anything revoked the certificate again. In particular the status is
      permanent while Vault never reports "not revoked" after "revoked". */
  lemma RevocationLostIff(states: seq<Db>, steps: seq<Step>, i: nat, k: nat, fp: Fingerprint)
    requires IsRun(states, steps) && i <= k < |states|
    requires fp in states[i].rows && states[i].rows[fp].marker.Some?
    requires forall m :: i <= m < k ==> !Deletes(steps[m], fp)
    ensures (exists m :: i <= m <= k && !IsRevoked(states[m], fp))
            <==> (exists r: nat, s: nat :: ClearedThenRescanned(states, steps, fp, i, k, r, s))
  {
    if r: nat, s: nat :| ClearedThenRescanned(states, steps, fp, i, k, r, s) {
      StepOnRow(states[r], steps[r], fp);
      UnmarkedStays(states, steps, r + 1, s, fp);
      StepOnRow(states[s], steps[s], fp);
      assert !IsRevoked(states[s + 1], fp);
    } else {
      forall m | i <= m <= k ensures IsRevoked(states[m], fp) {
        forall r: nat, s: nat ensures !ClearedThenRescanned(states, steps, fp, i, m, r, s) {
          assert !ClearedThenRescanned(states, steps, fp, i, k, r, s);
        }
        var _ := StandsRevoked(states, steps, i, m, fp);
      }
    }
  }

  /** Status revoked without a marker does occur: Vault has taken its report back. */
  lemma ReinstatedKeepsStatusUntilRescan(r: CertRow, u: ManagedUpdate, notAfter: Time, now: Time, window: int)
    requires r.marker == Some(InVault) && r.status.Revoked? && !u.revoked
    ensures var after := VaultUpdated(r, u);
            after.status.Revoked? && after.marker.None?
            && Rescanned(Some(after), notAfter, now, window).status == ComputeStatus(notAfter, now, window)
  {
  }

  /** Once Vault manages a certificate nothing but its deletion changes that. */
  lemma {:induction false} ManagedIsForever(states: seq<Db>, steps: seq<Step>, i: nat, k: nat, fp: Fingerprint)
    requires IsRun(states, steps) && i <= k < |states| && fp in ManagedSet(states[i].rows)
    requires forall m :: i <= m < k ==> !Deletes(steps[m], fp)
    ensures fp in ManagedSet(states[k].rows)
    decreases k
  {
    if i < k {
      ManagedIsForever(states, steps, i, k - 1, fp);
      StepOnRow(states[k - 1], steps[k - 1], fp);
    }
  }

  /** When a rescan announces cert.expiring: for an unmarked row exactly when the stored status
      becomes expiring_soon. A marked row hides its own status, so there every rescan inside
      the window announces again. */
  lemma RescanAnnouncesExpiry(states: seq<Db>, steps: seq<Step>, i: nat)
    requires IsRun(states, steps) && i < |steps| && steps[i].Rescan?
    ensures var fp := steps[i].fp;
            var before, after := Lookup(states[i].rows, fp), states[i + 1].rows[fp];
            Expiring(fp) in Announced(before, steps[i]) <==>
              if before.Some? && before.value.marker.Some?
              then ComputeStatus(steps[i].notAfter, steps[i].now, steps[i].window).ExpiringSoon?
              else after.status.ExpiringSoon? && (before.None? || !before.value.status.ExpiringSoon?)
  {
    RunKeeps(states, steps, i, steps[i].fp);
  }

  /** A rescan sees every certificate: a new one without a history, an old one with its days
      brought up to date, and with its status unless it is marked; nothing else changes. */
  lemma RescanMeaning(db: Db, fp: Fingerprint, notAfter: Time, now: Time, window: int)
    ensures var after := Exec(db, Rescan(fp, notAfter, now, window)).rows;
            && after.Keys == db.rows.Keys + {fp} && (forall other :: other in db.rows && other != fp ==> after[other] == db.rows[other])
            && after[fp].days == DaysLeft(notAfter, now)
            && Exec(db, Rescan(fp, notAfter, now, window)).events
               == db.events + (if fp in db.rows then [] else [Discovered(fp), BlindSpot(fp)])
                  + (if now <= notAfter && DaysLeft(notAfter, now) <= window && !(fp in db.rows && db.rows[fp].status.ExpiringSoon?)
                     then [Expiring(fp)] else [])
            && (fp !in db.rows ==>
                  after[fp] == CertRow(ComputeStatus(notAfter, now, window), DaysLeft(notAfter, now), None, Unmanaged, None, None))
            && (fp in db.rows ==>
                  && after[fp] == db.rows[fp].(days := DaysLeft(notAfter, now), status := after[fp].status)
                  && (if db.rows[fp].marker.Some? then after[fp].status == db.rows[fp].status
                      else after[fp].status == ComputeStatus(notAfter, now, window)))
  {
  }

  /** What the other steps leave alone: an import touches the managed flag only, a revocation the
      status and the marker, and a Vault update no days; unknown certificates stay unknown. */
  lemma StepTouches(db: Db, step: Step)
    requires !step.Rescan?
    ensures Exec(db, step).events
         == db.events + if step.MarkRevoked? && step.fp in db.rows then [RevokedEvent(step.fp, step.source)] else []
    ensures var after := Exec(db, step).rows;
            && (step.fp !in db.rows ==> after == db.rows)
            && (step.fp in db.rows ==>
                  var r := db.rows[step.fp];
                  match step
                  case Delete(fp) => after == db.rows - {fp}
                  case MarkRevoked(fp, source) => after == db.rows[fp := r.(status := Revoked, marker := Some(Via(source)))]
                  case Import(fp) =>
                    after == db.rows[fp := r.(managed := if r.managed.ManagedInVault? then ManagedInVault else Imported)]
                  case VaultUpdate(fp, u) =>
                    && fp in after && after == db.rows[fp := after[fp]]
                    && after[fp].days == r.days && after[fp].managed.ManagedInVault?
                    && after[fp].mount == Some(u.mount) && after[fp].issuerRef == u.issuerRef
                    && after[fp].status == (if u.revoked then Revoked else r.status)
                    && after[fp].marker == (if u.revoked then Some(InVault) else if r.marker == Some(InVault) then None else r.marker)
                  case _ => true)
  {
    assert step.fp !in db.rows ==> db.rows - {step.fp} == db.rows;
  }
}
