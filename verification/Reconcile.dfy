/** One Vault reconcile pass over the certificate rows (internal/vault/reconcile.go). */
module Reconcile {
  import opened Wrappers
  import opened Certificates

  /** What reading one serial gives: an error, a certificate that does not parse, or a
      fingerprint whose store update may still fail. */
  datatype CertAnswer =
    | ReadFailed(err: string)
    | BadPem(err: string)
    | Read(fp: Fingerprint, issuerRef: Option<string>, revoked: bool, storeErr: Option<string>)

  datatype SerialAnswer = SerialAnswer(serial: string, cert: CertAnswer)
  datatype Serials = ListFailed(err: string) | Listed(certs: seq<SerialAnswer>)
  datatype MountAnswer = MountAnswer(mount: string, serials: Serials)

  datatype Stage = ReadStage | FingerprintStage | StoreStage

  /** An entry of the summary's error list, before formatting. */
  datatype Failure = MountFailure(mount: string, err: string) | CertFailure(mount: string, serial: string, stage: Stage, err: string)

  datatype ReconcileStatus = StatusOk | StatusPartial | StatusFailed

  datatype Summary = Summary(mountsScanned: nat, vaultCertsRead: nat, matched: nat, revoked: nat,
                             unmatchedClm: int, status: Option<ReconcileStatus>, errors: seq<Failure>)

  datatype Reply = Done(summary: Summary) | MountsUnreadable(err: string) | CountFailed(err: string, summary: Summary)

  function NormalizeMount(mount: string): (m: string)
    ensures m != "" && m[|m| - 1] == '/'
    ensures NormalizedAlready(mount) ==> m == mount
    ensures mount <= m && |m| <= |mount| + 1
  {
    if NormalizedAlready(mount) then mount else mount + "/"
  }

  predicate NormalizedAlready(mount: string) {
    mount != "" && mount[|mount| - 1] == '/'
  }

  function StatusOf(read: nat, errors: seq<Failure>): ReconcileStatus {
    if errors == [] then StatusOk else if read == 0 then StatusFailed else StatusPartial
  }

  // ----- what the pass did, as a flat list of store updates -----

  datatype Update = Update(fp: Fingerprint, u: ManagedUpdate)

  predicate Applies(c: CertAnswer) {
    c.Read? && c.storeErr.None?
  }

  function UpdatesOfMount(mount: string, certs: seq<SerialAnswer>, n: nat): seq<Update>
    requires n <= |certs|
  {
    if n == 0 then []
    else UpdatesOfMount(mount, certs, n - 1) + UpdateOf(mount, certs[n - 1].cert)
  }

  function UpdateOf(mount: string, c: CertAnswer): seq<Update> {
    if Applies(c) then [Update(c.fp, ManagedUpdate(NormalizeMount(mount), c.issuerRef, c.revoked))] else []
  }

  function UpdatesAt(m: MountAnswer): seq<Update> {
    if m.serials.Listed? then UpdatesOfMount(m.mount, m.serials.certs, |m.serials.certs|) else []
  }

  function UpdatesOf(mounts: seq<MountAnswer>, n: nat): seq<Update>
    requires n <= |mounts|
  {
    if n == 0 then []
    else UpdatesOf(mounts, n - 1) + UpdatesAt(mounts[n - 1])
  }

  function ApplyUpdates(rows: map<Fingerprint, CertRow>, us: seq<Update>): map<Fingerprint, CertRow> {
    if us == [] then rows
    else
      var last := us[|us| - 1];
      var before := ApplyUpdates(rows, us[..|us| - 1]);
      if last.fp in before then before[last.fp := VaultUpdated(before[last.fp], last.u)] else before
  }

  function Matches(known: set<Fingerprint>, us: seq<Update>): nat {
    if us == [] then 0
    else Matches(known, us[..|us| - 1]) + if us[|us| - 1].fp in known then 1 else 0
  }

  function RevokedMatches(known: set<Fingerprint>, us: seq<Update>): nat {
    if us == [] then 0
    else RevokedMatches(known, us[..|us| - 1]) + if us[|us| - 1].fp in known && us[|us| - 1].u.revoked then 1 else 0
  }

  lemma {:induction false} ApplyKeepsKeys(rows: map<Fingerprint, CertRow>, us: seq<Update>)
    ensures ApplyUpdates(rows, us).Keys == rows.Keys
  {
    if us != [] {
      ApplyKeepsKeys(rows, us[..|us| - 1]);
    }
  }

  /** Updates in two portions: the second starts where the first ended. */
  lemma {:induction false} ApplyConcat(rows: map<Fingerprint, CertRow>, a: seq<Update>, b: seq<Update>)
    ensures ApplyUpdates(rows, a + b) == ApplyUpdates(ApplyUpdates(rows, a), b)
  {
    if b == [] {
      assert a + b == a;
    } else {
      ApplyConcat(rows, a, b[..|b| - 1]);
      assert (a + b)[..|a + b| - 1] == a + b[..|b| - 1];
    }
  }

  lemma {:induction false} MatchesConcat(known: set<Fingerprint>, a: seq<Update>, b: seq<Update>)
    ensures Matches(known, a + b) == Matches(known, a) + Matches(known, b)
    ensures RevokedMatches(known, a + b) == RevokedMatches(known, a) + RevokedMatches(known, b)
  {
    if b == [] {
      assert a + b == a;
    } else {
      MatchesConcat(known, a, b[..|b| - 1]);
      assert (a + b)[..|a + b| - 1] == a + b[..|b| - 1];
    }
  }

  /** The rows and the two match counters after the updates us. */
  ghost predicate Reached(start: map<Fingerprint, CertRow>, us: seq<Update>, rows: map<Fingerprint, CertRow>,
                          matched: nat, revoked: nat)
  {
    rows == ApplyUpdates(start, us) && matched == Matches(start.Keys, us) && revoked == RevokedMatches(start.Keys, us)
  }

  lemma ReachedConcat(start: map<Fingerprint, CertRow>, us: seq<Update>, mid: map<Fingerprint, CertRow>, m: nat, v: nat,
                      more: seq<Update>, rows: map<Fingerprint, CertRow>, m': nat, v': nat)
    requires Reached(start, us, mid, m, v) && Reached(mid, more, rows, m', v')
    ensures Reached(start, us + more, rows, m + m', v + v')
  {
    ApplyKeepsKeys(start, us);
    ApplyConcat(start, us, more);
    MatchesConcat(start.Keys, us, more);
  }

  function ReadsOfMount(certs: seq<SerialAnswer>, n: nat): nat
    requires n <= |certs|
  {
    if n == 0 then 0 else ReadsOfMount(certs, n - 1) + if certs[n - 1].cert.ReadFailed? then 0 else 1
  }

  function Reads(mounts: seq<MountAnswer>, n: nat): nat
    requires n <= |mounts|
  {
    if n == 0 then 0
    else Reads(mounts, n - 1) + ReadsAt(mounts[n - 1])
  }

  function ReadsAt(m: MountAnswer): nat {
    if m.serials.Listed? then ReadsOfMount(m.serials.certs, |m.serials.certs|) else 0
  }

  function FailureOf(mount: string, x: SerialAnswer): Option<Failure> {
    match x.cert
    case ReadFailed(err) => Some(CertFailure(mount, x.serial, ReadStage, err))
    case BadPem(err) => Some(CertFailure(mount, x.serial, FingerprintStage, err))
    case Read(_, _, _, storeErr) =>
      if storeErr.Some? then Some(CertFailure(mount, x.serial, StoreStage, storeErr.value)) else None
  }

  function FailuresOfMount(mount: string, certs: seq<SerialAnswer>, n: nat): (fs: seq<Failure>)
    requires n <= |certs|
  {
    if n == 0 then []
    else
      var f := FailureOf(mount, certs[n - 1]);
      FailuresOfMount(mount, certs, n - 1) + if f.Some? then [f.value] else []
  }

  function Failures(mounts: seq<MountAnswer>, n: nat): seq<Failure>
    requires n <= |mounts|
  {
    if n == 0 then []
    else Failures(mounts, n - 1) + FailuresAt(mounts[n - 1])
  }

  function FailuresAt(m: MountAnswer): seq<Failure> {
    match m.serials
    case ListFailed(err) => [MountFailure(m.mount, err)]
    case Listed(certs) => FailuresOfMount(m.mount, certs, |certs|)
  }

  predicate AllApply(certs: seq<SerialAnswer>, n: nat)
    requires n <= |certs|
  {
    forall k :: 0 <= k < n ==> Applies(certs[k].cert)
  }

  predicate Clean(m: MountAnswer) {
    m.serials.Listed? && AllApply(m.serials.certs, |m.serials.certs|)
  }

  lemma {:induction false} NoFailureInMountIff(mount: string, certs: seq<SerialAnswer>, n: nat)
    requires n <= |certs|
    ensures FailuresOfMount(mount, certs, n) == [] <==> AllApply(certs, n)
  {
    if n > 0 {
      NoFailureInMountIff(mount, certs, n - 1);
      assert AllApply(certs, n) <==> AllApply(certs, n - 1) && Applies(certs[n - 1].cert);
    }
  }

  lemma NoFailureIff(m: MountAnswer)
    ensures FailuresAt(m) == [] <==> Clean(m)
  {
    if m.serials.Listed? {
      NoFailureInMountIff(m.mount, m.serials.certs, |m.serials.certs|);
    }
  }

  lemma {:induction false} NoneFails(mounts: seq<MountAnswer>, n: nat, k: nat)
    requires k < n <= |mounts| && Failures(mounts, n) == []
    ensures FailuresAt(mounts[k]) == []
    decreases n
  {
    EmptyConcat(Failures(mounts, n - 1), FailuresAt(mounts[n - 1]));
    if k < n - 1 {
      NoneFails(mounts, n - 1, k);
    }
  }

  lemma {:induction false} SomeFails(mounts: seq<MountAnswer>, n: nat) returns (k: nat)
    requires n <= |mounts| && Failures(mounts, n) != []
    ensures k < n && FailuresAt(mounts[k]) != []
  {
    if FailuresAt(mounts[n - 1]) != [] {
      k := n - 1;
    } else {
      EmptyConcat(Failures(mounts, n - 1), FailuresAt(mounts[n - 1]));
      k := SomeFails(mounts, n - 1);
    }
  }

  lemma EmptyConcat(a: seq<Failure>, b: seq<Failure>)
    ensures a + b == [] <==> a == [] && b == []
  {
    assert |a + b| == |a| + |b|;
  }

  /** Status ok is reported exactly when every mount could be listed and every certificate in
      it was read, parsed and stored. */
  lemma OkIffClean(mounts: seq<MountAnswer>, n: nat, read: nat)
    requires n <= |mounts|
    ensures StatusOf(read, Failures(mounts, n)).StatusOk? <==> forall k :: 0 <= k < n ==> Clean(mounts[k])
  {
    if Failures(mounts, n) == [] {
      forall k | 0 <= k < n ensures Clean(mounts[k]) {
        NoneFails(mounts, n, k);
        NoFailureIff(mounts[k]);
      }
    } else {
      var k := SomeFails(mounts, n);
      NoFailureIff(mounts[k]);
    }
  }

  /** Where the outer loop stands after n mounts. */
  ghost predicate Passed(mounts: seq<MountAnswer>, n: nat, start: map<Fingerprint, CertRow>, rows: map<Fingerprint, CertRow>,
                         read: nat, matched: nat, revoked: nat, errors: seq<Failure>)
    requires n <= |mounts|
  {
    && Reached(start, UpdatesOf(mounts, n), rows, matched, revoked)
    && revoked <= matched <= read == Reads(mounts, n)
    && errors == Failures(mounts, n)
  }

  /** Where the inner loop stands after n certificates of a mount. */
  ghost predicate PassedCerts(mount: string, certs: seq<SerialAnswer>, n: nat,
                              start: map<Fingerprint, CertRow>, rows: map<Fingerprint, CertRow>,
                              read: nat, matched: nat, revoked: nat, errors: seq<Failure>)
    requires n <= |certs|
  {
    && Reached(start, UpdatesOfMount(mount, certs, n), rows, matched, revoked)
    && revoked <= matched <= read == ReadsOfMount(certs, n)
    && errors == FailuresOfMount(mount, certs, n)
  }

  lemma PassedNoCert(mount: string, certs: seq<SerialAnswer>, rows: map<Fingerprint, CertRow>)
    ensures PassedCerts(mount, certs, 0, rows, rows, 0, 0, 0, [])
  {
  }

  lemma OneMoreCert(mount: string, certs: seq<SerialAnswer>, n: nat)
    requires n < |certs|
    ensures UpdatesOfMount(mount, certs, n + 1) == UpdatesOfMount(mount, certs, n) + UpdateOf(mount, certs[n].cert)
    ensures ReadsOfMount(certs, n + 1) == ReadsOfMount(certs, n) + if certs[n].cert.ReadFailed? then 0 else 1
    ensures var f := FailureOf(mount, certs[n]);
            FailuresOfMount(mount, certs, n + 1) == FailuresOfMount(mount, certs, n) + if f.Some? then [f.value] else []
  {
  }

  lemma PassedCert(mount: string, certs: seq<SerialAnswer>, n: nat, start: map<Fingerprint, CertRow>, mid: map<Fingerprint, CertRow>,
                   read: nat, matched: nat, revoked: nat, errors: seq<Failure>,
                   rows: map<Fingerprint, CertRow>, r: nat, m: nat, v: nat, f: Option<Failure>)
    requires n < |certs| && PassedCerts(mount, certs, n, start, mid, read, matched, revoked, errors)
    requires Reached(mid, UpdateOf(mount, certs[n].cert), rows, m, v)
    requires v <= m <= r == (if certs[n].cert.ReadFailed? then 0 else 1) && f == FailureOf(mount, certs[n])
    ensures PassedCerts(mount, certs, n + 1, start, rows, read + r, matched + m, revoked + v,
                        errors + if f.Some? then [f.value] else [])
  {
    OneMoreCert(mount, certs, n);
    ReachedConcat(start, UpdatesOfMount(mount, certs, n), mid, matched, revoked, UpdateOf(mount, certs[n].cert), rows, m, v);
  }

  lemma PassedNone(mounts: seq<MountAnswer>, rows: map<Fingerprint, CertRow>)
    ensures Passed(mounts, 0, rows, rows, 0, 0, 0, [])
  {
  }

  lemma OneMoreMount(mounts: seq<MountAnswer>, n: nat)
    requires n < |mounts|
    ensures UpdatesOf(mounts, n + 1) == UpdatesOf(mounts, n) + UpdatesAt(mounts[n])
    ensures Reads(mounts, n + 1) == Reads(mounts, n) + ReadsAt(mounts[n])
    ensures Failures(mounts, n + 1) == Failures(mounts, n) + FailuresAt(mounts[n])
  {
  }

  lemma PassedMount(mounts: seq<MountAnswer>, n: nat, start: map<Fingerprint, CertRow>, mid: map<Fingerprint, CertRow>,
                    read: nat, matched: nat, revoked: nat, errors: seq<Failure>,
                    rows: map<Fingerprint, CertRow>, r: nat, m: nat, v: nat, es: seq<Failure>)
    requires n < |mounts| && Passed(mounts, n, start, mid, read, matched, revoked, errors)
    requires Reached(mid, UpdatesAt(mounts[n]), rows, m, v)
    requires v <= m <= r == ReadsAt(mounts[n]) && es == FailuresAt(mounts[n])
    ensures Passed(mounts, n + 1, start, rows, read + r, matched + m, revoked + v, errors + es)
  {
    OneMoreMount(mounts, n);
    ReachedConcat(start, UpdatesOf(mounts, n), mid, matched, revoked, UpdatesAt(mounts[n]), rows, m, v);
  }

  // ----- the pass -----

  class Reconciler {
    const store: CertificateStore

    constructor (store: CertificateStore)
      ensures this.store == store
    {
      this.store := store;
    }

    /** The store ends as the updates of the pass leave it, and the counters count them. */
    method Run(answers: Option<seq<MountAnswer>>, countErr: Option<string>) returns (reply: Reply)
      modifies store`rows
      ensures answers.None? <==> reply.MountsUnreadable?
      ensures reply.MountsUnreadable? ==> store.rows == old(store.rows)
      ensures !reply.MountsUnreadable? ==>
                var us := UpdatesOf(answers.value, |answers.value|);
                && store.rows == ApplyUpdates(old(store.rows), us)
                && reply.summary.mountsScanned == |answers.value|
                && reply.summary.matched == Matches(old(store.rows).Keys, us)
                && reply.summary.revoked == RevokedMatches(old(store.rows).Keys, us)
                && reply.summary.revoked <= reply.summary.matched <= reply.summary.vaultCertsRead
                && reply.summary.vaultCertsRead == Reads(answers.value, |answers.value|)
                && reply.summary.errors == Failures(answers.value, |answers.value|)
                && (reply.CountFailed? <==> countErr.Some?)
      ensures reply.Done? ==>
                && reply.summary.unmatchedClm == |store.rows| - |ManagedSet(store.rows)| >= 0
                && reply.summary.status == Some(StatusOf(reply.summary.vaultCertsRead, reply.summary.errors))
    {
      if answers.None? {
        return MountsUnreadable("list PKI mounts");
      }
      var mounts := answers.value;
      var read, matched, revoked, errors := ReconcileMounts(mounts);
      if countErr.Some? {
        return CountFailed(countErr.value, Summary(|mounts|, read, matched, revoked, 0, None, errors));
      }
      var managed, discovered := store.CountByManagedStatus();
      ManagedIsSubset(store.rows);
      var unmatched := discovered - managed;
      if unmatched < 0 {
        assert false;
      }
      reply := Done(Summary(|mounts|, read, matched, revoked, unmatched, Some(StatusOf(read, errors)), errors));
    }

    /** The outer loop. */
    method ReconcileMounts(mounts: seq<MountAnswer>) returns (read: nat, matched: nat, revoked: nat, errors: seq<Failure>)
      modifies store`rows
      ensures Passed(mounts, |mounts|, old(store.rows), store.rows, read, matched, revoked, errors)
    {
      read, matched, revoked, errors := 0, 0, 0, [];
      ghost var start := store.rows;
      PassedNone(mounts, start);
      for i := 0 to |mounts|
        invariant Passed(mounts, i, start, store.rows, read, matched, revoked, errors)
      {
        read, matched, revoked, errors := ReconcileNext(mounts, i, start, read, matched, revoked, errors);
      }
    }

    /** The body of the outer loop. */
    method ReconcileNext(mounts: seq<MountAnswer>, n: nat, ghost start: map<Fingerprint, CertRow>,
                         read: nat, matched: nat, revoked: nat, errors: seq<Failure>)
      returns (read': nat, matched': nat, revoked': nat, errors': seq<Failure>)
      requires n < |mounts| && Passed(mounts, n, start, store.rows, read, matched, revoked, errors)
      modifies store`rows
      ensures Passed(mounts, n + 1, start, store.rows, read', matched', revoked', errors')
    {
      ghost var mid := store.rows;
      var r, m, v, es := ReconcileMount(mounts[n]);
      PassedMount(mounts, n, start, mid, read, matched, revoked, errors, store.rows, r, m, v, es);
      read', matched', revoked', errors' := read + r, matched + m, revoked + v, errors + es;
    }

    /** One mount. */
    method ReconcileMount(m: MountAnswer) returns (read: nat, matched: nat, revoked: nat, errors: seq<Failure>)
      modifies store`rows
      ensures Reached(old(store.rows), UpdatesAt(m), store.rows, matched, revoked)
      ensures revoked <= matched <= read == ReadsAt(m) && errors == FailuresAt(m)
    {
      if m.serials.ListFailed? {
        return 0, 0, 0, [MountFailure(m.mount, m.serials.err)];
      }
      read, matched, revoked, errors := ReconcileCerts(m.mount, m.serials.certs);
    }

    /** The inner loop. */
    method ReconcileCerts(mount: string, certs: seq<SerialAnswer>)
      returns (read: nat, matched: nat, revoked: nat, errors: seq<Failure>)
      modifies store`rows
      ensures PassedCerts(mount, certs, |certs|, old(store.rows), store.rows, read, matched, revoked, errors)
    {
      read, matched, revoked, errors := 0, 0, 0, [];
      ghost var start := store.rows;
      PassedNoCert(mount, certs, start);
      for i := 0 to |certs|
        invariant PassedCerts(mount, certs, i, start, store.rows, read, matched, revoked, errors)
      {
        read, matched, revoked, errors := ReconcileNextCert(mount, certs, i, start, read, matched, revoked, errors);
      }
    }

    method ReconcileNextCert(mount: string, certs: seq<SerialAnswer>, n: nat, ghost start: map<Fingerprint, CertRow>,
                             read: nat, matched: nat, revoked: nat, errors: seq<Failure>)
      returns (read': nat, matched': nat, revoked': nat, errors': seq<Failure>)
      requires n < |certs| && PassedCerts(mount, certs, n, start, store.rows, read, matched, revoked, errors)
      modifies store`rows
      ensures PassedCerts(mount, certs, n + 1, start, store.rows, read', matched', revoked', errors')
    {
      ghost var mid := store.rows;
      var r, m, v, f := ReconcileCert(mount, certs[n]);
      PassedCert(mount, certs, n, start, mid, read, matched, revoked, errors, store.rows, r, m, v, f);
      read', matched', revoked' := read + r, matched + m, revoked + v;
      errors' := errors + if f.Some? then [f.value] else [];
    }

    /** The body of the inner loop. */
    method ReconcileCert(mount: string, x: SerialAnswer)
      returns (read: nat, matched: nat, revoked: nat, failure: Option<Failure>)
      modifies store`rows
      ensures Reached(old(store.rows), UpdateOf(mount, x.cert), store.rows, matched, revoked)
      ensures revoked <= matched <= read == (if x.cert.ReadFailed? then 0 else 1) && failure == FailureOf(mount, x)
    {
      read, matched, revoked, failure := 0, 0, 0, None;
      match x.cert {
        case ReadFailed(err) => {
          failure := Some(CertFailure(mount, x.serial, ReadStage, err));
        }
        case BadPem(err) => {
          read := 1;
          failure := Some(CertFailure(mount, x.serial, FingerprintStage, err));
        }
        case Read(fp, issuerRef, rev, storeErr) => {
          read := 1;
          if storeErr.Some? {
            failure := Some(CertFailure(mount, x.serial, StoreStage, storeErr.value));
          } else {
            var u := ManagedUpdate(NormalizeMount(mount), issuerRef, rev);
            var updated := store.UpdateManagedStatusByFingerprint(fp, u);
            OneUpdate(old(store.rows), fp, u);
            if updated {
              matched := 1;
              if rev {
                revoked := 1;
              }
            }
          }
        }
      }
    }
  }

  lemma OneUpdate(rows: map<Fingerprint, CertRow>, fp: Fingerprint, u: ManagedUpdate)
    ensures Reached(rows, [Update(fp, u)], Exec(Db(rows, []), VaultUpdate(fp, u)).rows,
                    if fp in rows then 1 else 0, if fp in rows && u.revoked then 1 else 0)
  {
    assert [Update(fp, u)][..0] == [];
    assert fp in rows || rows - {fp} == rows;
  }

  // ----- the summary, counted over the answers themselves -----

  /** The answers for all serials of all mounts that could be listed. */
  function AllAnswers(mounts: seq<MountAnswer>, n: nat): seq<SerialAnswer>
    requires n <= |mounts|
  {
    if n == 0 then []
    else AllAnswers(mounts, n - 1) + AnswersAt(mounts[n - 1])
  }

  datatype Fate = WasRead | WasMatched | WasRevoked

  /** What may be said of an answer: that a certificate came back, parsed or not; that it could
      be stored for a known certificate; and that Vault, besides, calls it revoked. */
  predicate Meets(x: SerialAnswer, fate: Fate, known: set<Fingerprint>) {
    match fate
    case WasRead => x.cert.BadPem? || x.cert.Read?
    case WasMatched => x.cert.Read? && x.cert.storeErr.None? && x.cert.fp in known
    case WasRevoked => x.cert.Read? && x.cert.storeErr.None? && x.cert.fp in known && x.cert.revoked
  }

  function HowMany(xs: seq<SerialAnswer>, fate: Fate, known: set<Fingerprint>): nat {
    if xs == [] then 0
    else HowMany(xs[..|xs| - 1], fate, known) + if Meets(xs[|xs| - 1], fate, known) then 1 else 0
  }

  lemma {:induction false} HowManyConcat(xs: seq<SerialAnswer>, ys: seq<SerialAnswer>, fate: Fate, known: set<Fingerprint>)
    ensures HowMany(xs + ys, fate, known) == HowMany(xs, fate, known) + HowMany(ys, fate, known)
    decreases |ys|
  {
    if ys == [] {
      assert xs + ys == xs;
    } else {
      HowManyConcat(xs, ys[..|ys| - 1], fate, known);
      assert (xs + ys)[..|xs + ys| - 1] == xs + ys[..|ys| - 1];
    }
  }

  /** The counters of some answers and of the updates they give. */
  ghost predicate CountsAgree(xs: seq<SerialAnswer>, us: seq<Update>, fetched: nat, known: set<Fingerprint>) {
    && fetched == HowMany(xs, WasRead, known)
    && Matches(known, us) == HowMany(xs, WasMatched, known)
    && RevokedMatches(known, us) == HowMany(xs, WasRevoked, known)
  }

  lemma CountsConcat(xs: seq<SerialAnswer>, us: seq<Update>, fetched: nat, ys: seq<SerialAnswer>, vs: seq<Update>, more: nat,
                     known: set<Fingerprint>)
    requires CountsAgree(xs, us, fetched, known) && CountsAgree(ys, vs, more, known)
    ensures CountsAgree(xs + ys, us + vs, fetched + more, known)
  {
    HowManyConcat(xs, ys, WasRead, known);
    HowManyConcat(xs, ys, WasMatched, known);
    HowManyConcat(xs, ys, WasRevoked, known);
    MatchesConcat(known, us, vs);
  }

  lemma CountsOne(mount: string, x: SerialAnswer, known: set<Fingerprint>)
    ensures CountsAgree([x], UpdateOf(mount, x.cert), if x.cert.ReadFailed? then 0 else 1, known)
  {
    var us := UpdateOf(mount, x.cert);
    assert [x][..0] == [];
    assert us != [] ==> us[..|us| - 1] == [];
  }

  ghost predicate MountCounts(mount: string, certs: seq<SerialAnswer>, n: nat, known: set<Fingerprint>)
    requires n <= |certs|
  {
    CountsAgree(certs[..n], UpdatesOfMount(mount, certs, n), ReadsOfMount(certs, n), known)
  }

  lemma NothingCounts(known: set<Fingerprint>)
    ensures CountsAgree([], [], 0, known)
  {
  }

  /** One more answer of a mount. */
  lemma MountCountsOneMore(mount: string, certs: seq<SerialAnswer>, n: nat, known: set<Fingerprint>)
    requires n < |certs| && MountCounts(mount, certs, n, known)
    ensures MountCounts(mount, certs, n + 1, known)
  {
    CountsOne(mount, certs[n], known);
    OneMoreCert(mount, certs, n);
    CountsConcat(certs[..n], UpdatesOfMount(mount, certs, n), ReadsOfMount(certs, n),
                 [certs[n]], UpdateOf(mount, certs[n].cert), if certs[n].cert.ReadFailed? then 0 else 1, known);
    assert certs[..n + 1] == certs[..n] + [certs[n]];
  }

  lemma {:induction false} CountsOfMount(mount: string, certs: seq<SerialAnswer>, n: nat, known: set<Fingerprint>)
    requires n <= |certs|
    ensures MountCounts(mount, certs, n, known)
    decreases n
  {
    if n > 0 {
      var m := n - 1;
      CountsOfMount(mount, certs, m, known);
      MountCountsOneMore(mount, certs, m, known);
    } else {
      NothingCounts(known);
      assert certs[..0] == [];
    }
  }

  function AnswersAt(m: MountAnswer): seq<SerialAnswer> {
    if m.serials.Listed? then m.serials.certs else []
  }

  lemma CountsAtMount(m: MountAnswer, known: set<Fingerprint>)
    ensures CountsAgree(AnswersAt(m), UpdatesAt(m), ReadsAt(m), known)
  {
    if m.serials.Listed? {
      CountsOfMount(m.mount, m.serials.certs, |m.serials.certs|, known);
      assert m.serials.certs[..|m.serials.certs|] == m.serials.certs;
    } else {
      NothingCounts(known);
    }
  }

  ghost predicate PassCounts(mounts: seq<MountAnswer>, n: nat, known: set<Fingerprint>)
    requires n <= |mounts|
  {
    CountsAgree(AllAnswers(mounts, n), UpdatesOf(mounts, n), Reads(mounts, n), known)
  }

  lemma PassCountsOneMore(mounts: seq<MountAnswer>, n: nat, known: set<Fingerprint>)
    requires n < |mounts| && PassCounts(mounts, n, known)
    ensures PassCounts(mounts, n + 1, known)
  {
    CountsAtMount(mounts[n], known);
    OneMoreMount(mounts, n);
    CountsConcat(AllAnswers(mounts, n), UpdatesOf(mounts, n), Reads(mounts, n),
                 AnswersAt(mounts[n]), UpdatesAt(mounts[n]), ReadsAt(mounts[n]), known);
    OneMoreAnswers(mounts, n);
  }

  lemma OneMoreAnswers(mounts: seq<MountAnswer>, n: nat)
    requires n < |mounts|
    ensures AllAnswers(mounts, n + 1) == AllAnswers(mounts, n) + AnswersAt(mounts[n])
  {
  }

  lemma {:induction false} PassCountsAll(mounts: seq<MountAnswer>, n: nat, known: set<Fingerprint>)
    requires n <= |mounts|
    ensures PassCounts(mounts, n, known)
    decreases n
  {
    if n > 0 {
      var m := n - 1;
      PassCountsAll(mounts, m, known);
      PassCountsOneMore(mounts, m, known);
    } else {
      NothingCounts(known);
    }
  }

  /** The summary counts answers: read is every serial that came back as a certificate, parsed or
      not, matched is every one of them that could be stored for a known certificate, and
      revoked is every matched one that Vault calls revoked. */
  lemma SummaryCounts(mounts: seq<MountAnswer>, known: set<Fingerprint>)
    ensures var n, us := |mounts|, UpdatesOf(mounts, |mounts|);
            && Reads(mounts, n) == HowMany(AllAnswers(mounts, n), WasRead, known)
            && Matches(known, us) == HowMany(AllAnswers(mounts, n), WasMatched, known)
            && RevokedMatches(known, us) == HowMany(AllAnswers(mounts, n), WasRevoked, known)
  {
    PassCountsAll(mounts, |mounts|, known);
  }

  /** A mount path with the slash it needs. */
  predicate WithSlash(path: string, mount: string) {
    if mount != "" && mount[|mount| - 1] == '/' then path == mount else path == mount + "/"
  }

  lemma NormalizedHasSlash(mount: string)
    ensures WithSlash(NormalizeMount(mount), mount)
  {
    if NormalizedAlready(mount) {
    } else {
      assert NormalizeMount(mount)[..|mount|] == mount;
    }
  }

  /** The update an answer gives: for the certificate that was read, with its issuer, what Vault
      says of it, and the mount it was read from. */
  predicate GivenBy(u: Update, mount: string, x: SerialAnswer) {
    x.cert.Read? && x.cert.storeErr.None?
    && u.fp == x.cert.fp && u.u.issuerRef == x.cert.issuerRef && u.u.revoked == x.cert.revoked && WithSlash(u.u.mount, mount)
  }

  lemma UpdateOfMeaning(mount: string, x: SerialAnswer, u: Update)
    ensures u in UpdateOf(mount, x.cert) <==> GivenBy(u, mount, x)
  {
    NormalizedHasSlash(mount);
  }

  lemma InUpdates(u: Update, a: seq<Update>, b: seq<Update>)
    ensures u in a + b <==> u in a || u in b
  {
  }

  ghost predicate GivenInMount(u: Update, mount: string, certs: seq<SerialAnswer>, n: nat)
    requires n <= |certs|
  {
    exists k :: 0 <= k < n && GivenBy(u, mount, certs[k])
  }

  lemma GivenOneMore(u: Update, mount: string, certs: seq<SerialAnswer>, n: nat)
    requires n < |certs|
    ensures GivenInMount(u, mount, certs, n + 1) <==> GivenInMount(u, mount, certs, n) || GivenBy(u, mount, certs[n])
  {
    if k :| 0 <= k < n && GivenBy(u, mount, certs[k]) {
      assert k < n + 1;
    }
  }

  lemma {:induction false} UpdatesOfMountMeaning(mount: string, certs: seq<SerialAnswer>, n: nat, u: Update)
    requires n <= |certs|
    ensures u in UpdatesOfMount(mount, certs, n) <==> GivenInMount(u, mount, certs, n)
    decreases n
  {
    if n > 0 {
      var m := n - 1;
      UpdatesOfMountMeaning(mount, certs, m, u);
      OneMoreCert(mount, certs, m);
      UpdateOfMeaning(mount, certs[m], u);
      InUpdates(u, UpdatesOfMount(mount, certs, m), UpdateOf(mount, certs[m].cert));
      GivenOneMore(u, mount, certs, m);
    }
  }

  ghost predicate GivenAt(u: Update, m: MountAnswer) {
    m.serials.Listed? && exists k :: 0 <= k < |m.serials.certs| && GivenBy(u, m.mount, m.serials.certs[k])
  }

  lemma UpdatesAtMeaning(m: MountAnswer, u: Update)
    ensures u in UpdatesAt(m) <==> GivenAt(u, m)
  {
    if m.serials.Listed? {
      UpdatesOfMountMeaning(m.mount, m.serials.certs, |m.serials.certs|, u);
    }
  }

  ghost predicate Given(u: Update, mounts: seq<MountAnswer>, n: nat)
    requires n <= |mounts|
  {
    exists k :: 0 <= k < n && GivenAt(u, mounts[k])
  }

  lemma GivenInOneMore(u: Update, mounts: seq<MountAnswer>, n: nat)
    requires n < |mounts|
    ensures Given(u, mounts, n + 1) <==> Given(u, mounts, n) || GivenAt(u, mounts[n])
  {
    if k :| 0 <= k < n && GivenAt(u, mounts[k]) {
      assert k < n + 1;
    }
  }

  /** The store is asked to update exactly the certificates that could be read, parsed and stored,
      each with the mount it was read from and what Vault says of it there. */
  lemma {:induction false} UpdatesMeaning(mounts: seq<MountAnswer>, n: nat, u: Update)
    requires n <= |mounts|
    ensures u in UpdatesOf(mounts, n) <==> Given(u, mounts, n)
    decreases n
  {
    if n > 0 {
      var m := n - 1;
      UpdatesMeaning(mounts, m, u);
      OneMoreMount(mounts, m);
      UpdatesAtMeaning(mounts[m], u);
      InUpdates(u, UpdatesOf(mounts, m), UpdatesAt(mounts[m]));
      GivenInOneMore(u, mounts, m);
    }
  }

  /** The entry of the error list for an answer: what went wrong, at which stage. */
  predicate Explains(f: Failure, mount: string, x: SerialAnswer) {
    match x.cert
    case ReadFailed(err) => f == CertFailure(mount, x.serial, ReadStage, err)
    case BadPem(err) => f == CertFailure(mount, x.serial, FingerprintStage, err)
    case Read(_, _, _, storeErr) => storeErr.Some? && f == CertFailure(mount, x.serial, StoreStage, storeErr.value)
  }

  lemma FailureOfMeaning(mount: string, x: SerialAnswer, f: Failure)
    ensures FailureOf(mount, x) == Some(f) <==> Explains(f, mount, x)
  {
  }

  lemma {:induction false} FailuresOfMountMeaning(mount: string, certs: seq<SerialAnswer>, n: nat, f: Failure)
    requires n <= |certs|
    ensures f in FailuresOfMount(mount, certs, n) <==> exists k :: 0 <= k < n && Explains(f, mount, certs[k])
  {
    if n > 0 {
      FailuresOfMountMeaning(mount, certs, n - 1, f);
      FailureOfMeaning(mount, certs[n - 1], f);
      var last := FailureOf(mount, certs[n - 1]);
      assert f in FailuresOfMount(mount, certs, n) <==> f in FailuresOfMount(mount, certs, n - 1) || last == Some(f);
    }
  }

  /** A mount that could not be listed, or a serial that could not be read, parsed or stored. */
  predicate ReportedBy(f: Failure, m: MountAnswer) {
    match m.serials
    case ListFailed(err) => f == MountFailure(m.mount, err)
    case Listed(certs) => exists k :: 0 <= k < |certs| && Explains(f, m.mount, certs[k])
  }

  lemma FailuresAtMeaning(m: MountAnswer, f: Failure)
    ensures f in FailuresAt(m) <==> ReportedBy(f, m)
  {
    if m.serials.Listed? {
      FailuresOfMountMeaning(m.mount, m.serials.certs, |m.serials.certs|, f);
    }
  }

  ghost predicate Reported(f: Failure, mounts: seq<MountAnswer>, n: nat)
    requires n <= |mounts|
  {
    exists k :: 0 <= k < n && ReportedBy(f, mounts[k])
  }

  lemma ReportedOneMore(f: Failure, mounts: seq<MountAnswer>, n: nat)
    requires n < |mounts|
    ensures Reported(f, mounts, n + 1) <==> Reported(f, mounts, n) || ReportedBy(f, mounts[n])
  {
    if k :| 0 <= k < n && ReportedBy(f, mounts[k]) {
      assert k < n + 1;
    }
  }

  lemma InConcat(f: Failure, a: seq<Failure>, b: seq<Failure>)
    ensures f in a + b <==> f in a || f in b
  {
  }

  /** The error list holds an entry exactly for whatever could not be listed, read, parsed or
      stored. */
  lemma {:induction false} FailuresMeaning(mounts: seq<MountAnswer>, n: nat, f: Failure)
    requires n <= |mounts|
    ensures f in Failures(mounts, n) <==> Reported(f, mounts, n)
    decreases n
  {
    if n > 0 {
      var m := n - 1;
      FailuresMeaning(mounts, m, f);
      FailuresOneMore(mounts, m, f);
      ReportedOneMore(f, mounts, m);
    }
  }

  lemma FailuresOneMore(mounts: seq<MountAnswer>, n: nat, f: Failure)
    requires n < |mounts|
    ensures f in Failures(mounts, n + 1) <==> f in Failures(mounts, n) || ReportedBy(f, mounts[n])
  {
    OneMoreMount(mounts, n);
    FailuresAtMeaning(mounts[n], f);
    InConcat(f, Failures(mounts, n), FailuresAt(mounts[n]));
  }

  lemma {:induction false} NoneRead(xs: seq<SerialAnswer>, known: set<Fingerprint>)
    ensures HowMany(xs, WasRead, known) == 0 <==> forall x :: x in xs ==> x.cert.ReadFailed?
  {
    if xs != [] {
      NoneRead(xs[..|xs| - 1], known);
      assert xs == xs[..|xs| - 1] + [xs[|xs| - 1]];
    }
  }

  /** A pass is ok if nothing went wrong, failed if something did and not a single certificate
      came back, and partial otherwise. */
  lemma StatusMeaning(mounts: seq<MountAnswer>)
    ensures var n := |mounts|;
            var status := StatusOf(Reads(mounts, n), Failures(mounts, n));
            && (status.StatusOk? <==> forall k :: 0 <= k < n ==> Clean(mounts[k]))
            && (status.StatusFailed? <==> (exists k :: 0 <= k < n && !Clean(mounts[k]))
                                          && forall x :: x in AllAnswers(mounts, n) ==> x.cert.ReadFailed?)
  {
    var n := |mounts|;
    OkIffClean(mounts, n, Reads(mounts, n));
    SummaryCounts(mounts, {});
    NoneRead(AllAnswers(mounts, n), {});
  }

  // ----- what a pass achieves -----

  /** Managed rows are rows: the clamp on the unmatched count never fires. */
  lemma ManagedIsSubset(rows: map<Fingerprint, CertRow>)
    ensures |ManagedSet(rows)| <= |rows|
  {
    SubsetSize(ManagedSet(rows), rows.Keys);
    assert |rows.Keys| == |rows|;
  }

  lemma {:induction false} SubsetSize(a: set<Fingerprint>, b: set<Fingerprint>)
    requires a <= b
    ensures |a| <= |b|
    decreases a
  {
    if a != {} {
      var x :| x in a;
      SubsetSize(a - {x}, b - {x});
    }
  }

  function FingerprintsRead(us: seq<Update>): set<Fingerprint> {
    set i | 0 <= i < |us| :: us[i].fp
  }

  /** The new managed set is the old one and every known certificate Vault showed. */
  lemma {:induction false} ManagedAfter(rows: map<Fingerprint, CertRow>, us: seq<Update>)
    ensures ApplyUpdates(rows, us).Keys == rows.Keys
    ensures ManagedSet(ApplyUpdates(rows, us)) == ManagedSet(rows) + (rows.Keys * FingerprintsRead(us))
  {
    if us == [] {
      assert FingerprintsRead(us) == {};
      assert ManagedSet(rows) == ManagedSet(rows) + (rows.Keys * {});
    } else {
      var init, last := us[..|us| - 1], us[|us| - 1];
      ManagedAfter(rows, init);
      assert FingerprintsRead(us) == FingerprintsRead(init) + {last.fp};
      var before := ApplyUpdates(rows, init);
      if last.fp in before {
        assert ManagedSet(before[last.fp := VaultUpdated(before[last.fp], last.u)]) == ManagedSet(before) + {last.fp};
      }
    }
  }

  // ----- a second pass -----

  /** The updates that name one fingerprint, in order. */
  function About(us: seq<Update>, fp: Fingerprint): seq<ManagedUpdate> {
    if us == [] then []
    else About(us[..|us| - 1], fp) + if us[|us| - 1].fp == fp then [us[|us| - 1].u] else []
  }

  function RowAfterAll(r: CertRow, us: seq<ManagedUpdate>): CertRow {
    if us == [] then r else VaultUpdated(RowAfterAll(r, us[..|us| - 1]), us[|us| - 1])
  }

  lemma {:induction false} RowsOneByOne(rows: map<Fingerprint, CertRow>, us: seq<Update>, fp: Fingerprint)
    requires fp in rows
    ensures fp in ApplyUpdates(rows, us) && ApplyUpdates(rows, us)[fp] == RowAfterAll(rows[fp], About(us, fp))
  {
    if us != [] {
      var init, last := us[..|us| - 1], us[|us| - 1];
      RowsOneByOne(rows, init, fp);
      var mine := About(init, fp);
      if last.fp == fp {
        assert (mine + [last.u])[..|mine|] == mine;
      } else {
        assert mine + [] == mine;
      }
    }
  }

  predicate AnyRevoked(us: seq<ManagedUpdate>) {
    exists i :: 0 <= i < |us| && us[i].revoked
  }

  /** The row a pass leaves: the last report decides the mount, the issuer and Vault's marker,
      and one report of revocation is enough for the status. */
  lemma {:induction false} ClosedForm(r: CertRow, us: seq<ManagedUpdate>)
    requires us != []
    ensures var last := us[|us| - 1];
            RowAfterAll(r, us) == CertRow(
              if AnyRevoked(us) then Revoked else r.status,
              r.days,
              if last.revoked then Some(InVault)
              else if AnyRevoked(us) || r.marker == Some(InVault) then None
              else r.marker,
              ManagedInVault, Some(last.mount), last.issuerRef)
  {
    var init := us[..|us| - 1];
    if init != [] {
      ClosedForm(r, init);
      assert AnyRevoked(us) <==> AnyRevoked(init) || us[|us| - 1].revoked by {
        assert forall i :: 0 <= i < |init| ==> init[i] == us[i];
      }
    } else {
      assert RowAfterAll(r, init) == r;
      assert us == [us[0]];
    }
  }

  /** A second pass that reads the same answers in the same order changes nothing. */
  lemma SecondPassChangesNothing(rows: map<Fingerprint, CertRow>, us: seq<Update>)
    ensures ApplyUpdates(ApplyUpdates(rows, us), us) == ApplyUpdates(rows, us)
  {
    var once := ApplyUpdates(rows, us);
    var twice := ApplyUpdates(once, us);
    ApplyKeepsKeys(rows, us);
    ApplyKeepsKeys(once, us);
    forall fp | fp in rows ensures twice[fp] == once[fp] {
      RowsOneByOne(rows, us, fp);
      RowsOneByOne(once, us, fp);
      var mine := About(us, fp);
      if mine != [] {
        ClosedForm(rows[fp], mine);
        ClosedForm(once[fp], mine);
      }
    }
  }

  /** The order matters: a certificate present in two mounts, revoked in one of them, ends
      marked or unmarked depending on which mount is read last. */
  lemma OrderDecidesTheMarker(r: CertRow, a: ManagedUpdate, b: ManagedUpdate)
    requires a.revoked && !b.revoked
    ensures RowAfterAll(r, [b, a]).marker == Some(InVault) && RowAfterAll(r, [a, b]).marker == None
    ensures RowAfterAll(r, [b, a]).status.Revoked? && RowAfterAll(r, [a, b]).status.Revoked?
  {
    assert [a, b][..1] == [a] && [b, a][..1] == [b];
    assert RowAfterAll(r, [a]) == VaultUpdated(RowAfterAll(r, []), a);
    assert RowAfterAll(r, [b]) == VaultUpdated(RowAfterAll(r, []), b);
  }

  /** A pass is a run of store steps, so everything proved of runs covers it. */
  lemma {:induction false} PassIsARun(db: Db, us: seq<Update>)
    ensures ExecAll(db, us) == Db(ApplyUpdates(db.rows, us), db.events)
  {
    if us != [] {
      PassIsARun(db, us[..|us| - 1]);
      var before := ApplyUpdates(db.rows, us[..|us| - 1]);
      var last := us[|us| - 1];
      assert last.fp in before || before - {last.fp} == before;
    }
  }

  function ExecAll(db: Db, us: seq<Update>): Db {
    if us == [] then db
    else Exec(ExecAll(db, us[..|us| - 1]), VaultUpdate(us[|us| - 1].fp, us[|us| - 1].u))
  }
}
