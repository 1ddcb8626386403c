/** Compliance packs, their severities, and the two ways to count SC-081 violations
    (internal/compliance). */
module Compliance {
  import opened Wrappers
  import opened Backoff
  import opened Sorting
  import Certificates

  datatype KeyKind = Rsa | Ecdsa | Ed25519 | OtherKey
  datatype Scope = Internal | External | OtherScope
  datatype Chain = Complete | SelfSigned | Incomplete | UntrustedRoot

  datatype Cert = Cert(notBefore: Time, notAfter: Time, keyKind: KeyKind, keyBits: int, sha1: bool,
                       scope: Scope, environment: Option<string>, owner: Option<string>, tags: seq<string>,
                       managed: Certificates.Managed, status: Certificates.Lifecycle, chain: Chain,
                       hostnameMatches: bool)

  datatype Pack = CryptoPack | OpsPack | PciPack | Sc081Pack

  /** The rule ids, in the alphabetical order of their names. */
  datatype RuleId =
    | CryptoKeyEcdsaWeak | CryptoRsaWeakKey | CryptoSignatureSha1
    | OpsExpired | OpsExpiringSoon | OpsIncompleteChain | OpsRevoked | OpsSanMismatch
    | OpsShadowExternal | OpsShadowInternal | OpsUntrustedRoot | OpsWeakKey
    | PciMissingOwner | PciNotInVault | PciUntaggedProd
    | Sc081ExpiryCritical | Sc081ExpiryExpired | Sc081ExpiryWarning
    | Sc081Validity199 | Sc081Validity47 | Sc081Validity64 | Sc081Validity99

  datatype Severity = Critical | High | Warning | Medium | Low | Info

  datatype Finding = Finding(rule: RuleId, pack: Pack, severity: Severity)

  // ----- SC-081 -----

  datatype Ceiling = Ceiling(effective: Time, maxDays: nat, rule: RuleId)

  /** 15 March of 2029, 2028, 2027 and 2026, as days since 1 January of year 1. */
  const CEILINGS: seq<Ceiling> := [
    Ceiling(740785 * DAY, 47, Sc081Validity47),
    Ceiling(740420 * DAY, 64, Sc081Validity64),
    Ceiling(740054 * DAY, 99, Sc081Validity99),
    Ceiling(739689 * DAY, 199, Sc081Validity199)
  ]

  /** The first row of the table, from row i on, that is in force. */
  function CeilingFrom(notBefore: Time, i: nat): Option<Ceiling>
    requires i <= |CEILINGS|
    decreases |CEILINGS| - i
  {
    if i == |CEILINGS| then None
    else if notBefore >= CEILINGS[i].effective then Some(CEILINGS[i])
    else CeilingFrom(notBefore, i + 1)
  }

  function CeilingFor(notBefore: Time): Option<Ceiling> {
    CeilingFrom(notBefore, 0)
  }

  /** The table gives the strictest ceiling already in force when the certificate was issued. */
  lemma StrictestCeiling(notBefore: Time)
    ensures CeilingFor(notBefore).Some? <==> exists c :: c in CEILINGS && c.effective <= notBefore
    ensures CeilingFor(notBefore).Some? ==>
              var chosen := CeilingFor(notBefore).value;
              chosen in CEILINGS && chosen.effective <= notBefore
              && forall c :: c in CEILINGS && c.effective <= notBefore ==> chosen.maxDays <= c.maxDays
  {
  }

  /** Days of validity as the finding reports them, rounded up. */
  function ValidityDays(notBefore: Time, notAfter: Time): int {
    -((notBefore - notAfter) / DAY)
  }

  /** A certificate is flagged exactly when the day count shown for it exceeds the ceiling. */
  lemma FlaggedIffOverCeiling(c: Cert)
    ensures ValidityFinding(c).Some? <==>
              CeilingFor(c.notBefore).Some? && ValidityDays(c.notBefore, c.notAfter) > CeilingFor(c.notBefore).value.maxDays
  {
    if CeilingFor(c.notBefore).Some? {
      CeilingRounds(c.notAfter - c.notBefore, CeilingFor(c.notBefore).value.maxDays);
    }
  }

  lemma CeilingRounds(span: int, maxDays: nat)
    ensures -((-span) / DAY) > maxDays <==> span > maxDays * DAY
  {
    var q := (-span) / DAY;
    assert q * DAY <= -span < q * DAY + DAY;
    if -q > maxDays {
      assert -q * DAY >= (maxDays + 1) * DAY;
    } else {
      assert -q * DAY <= maxDays * DAY;
    }
  }

  function ValidityFinding(c: Cert): Option<Finding> {
    var ceiling := CeilingFor(c.notBefore);
    if ceiling.None? || c.notAfter - c.notBefore <= ceiling.value.maxDays * DAY then None
    else Some(Finding(ceiling.value.rule, Sc081Pack, Critical))
  }

  predicate IsProd(environment: Option<string>) {
    environment == Some("prod")
  }

  /** Expiry on internal certificates outside production is reported as information only. */
  predicate Downgraded(c: Cert) {
    c.scope.Internal? && !IsProd(c.environment)
  }

  function ExpiryFinding(c: Cert, now: Time): Option<Finding> {
    var days := Certificates.DaysLeft(c.notAfter, now);
    var severity := (base: Severity) => if Downgraded(c) then Info else base;
    if c.notAfter < now then Some(Finding(Sc081ExpiryExpired, Sc081Pack, severity(Critical)))
    else if days <= 14 then Some(Finding(Sc081ExpiryCritical, Sc081Pack, severity(Critical)))
    else if days <= 60 then Some(Finding(Sc081ExpiryWarning, Sc081Pack, severity(Warning)))
    else None
  }

  /** The three windows meet without gap or overlap, to the nanosecond. */
  lemma ExpiryWindows(c: Cert, now: Time)
    ensures var f := ExpiryFinding(c, now);
            && (f.None? <==> c.notAfter >= now + 61 * DAY)
            && (f.Some? ==>
                  && (f.value.rule.Sc081ExpiryExpired? <==> c.notAfter < now)
                  && (f.value.rule.Sc081ExpiryCritical? <==> now <= c.notAfter < now + 15 * DAY)
                  && (f.value.rule.Sc081ExpiryWarning? <==> now + 15 * DAY <= c.notAfter < now + 61 * DAY)
                  && (f.value.severity.Info? <==> Downgraded(c)))
  {
  }

  function Opt(f: Option<Finding>): seq<Finding> {
    if f.Some? then [f.value] else []
  }

  function EvaluateSc081(c: Cert, now: Time): seq<Finding> {
    Opt(ValidityFinding(c)) + Opt(ExpiryFinding(c, now))
  }

  // ----- the other packs -----

  function When(b: bool, rule: RuleId, pack: Pack, severity: Severity): Option<Finding> {
    if b then Some(Finding(rule, pack, severity)) else None
  }

  predicate MissingOwner(owner: Option<string>) {
    owner.None? || owner.value == ""
  }

  function EvaluatePci(c: Cert): seq<Finding> {
    Opt(When(c.scope.External? && MissingOwner(c.owner), PciMissingOwner, PciPack, Warning))
    + Opt(When(IsProd(c.environment) && (MissingOwner(c.owner) || c.tags == []), PciUntaggedProd, PciPack, Warning))
    + Opt(When(c.managed.Unmanaged? && c.scope.External? && IsProd(c.environment), PciNotInVault, PciPack, Info))
  }

  function EvaluateCrypto(c: Cert): seq<Finding> {
    Opt(When(c.keyKind.Rsa? && c.keyBits < 2048, CryptoRsaWeakKey, CryptoPack, Critical))
    + Opt(When(c.sha1, CryptoSignatureSha1, CryptoPack, Critical))
    + Opt(When(c.keyKind.Ecdsa? && c.keyBits < 256, CryptoKeyEcdsaWeak, CryptoPack, Warning))
  }

  // ----- severities -----

  function MapPackSeverity(pack: Pack, s: Severity): (r: Severity)
    ensures !r.Warning?
    ensures !s.Warning? ==> r == s
  {
    if s.Warning? then (if pack.PciPack? then Medium else High) else s
  }

  function ScoreSeverity(s: Severity): nat {
    match s
    case Critical => 90
    case High => 70
    case Medium => 40
    case Low => 20
    case Info => 5
    case Warning => 0
  }

  // ----- sorting -----

  function SeverityRank(s: Severity): nat {
    match s
    case Critical => 0
    case High => 1
    case Warning => 1
    case Medium => 2
    case Low => 3
    case Info => 4
  }

  function RuleOrder(r: RuleId): (n: nat)
    ensures n < 22
  {
    match r
    case CryptoKeyEcdsaWeak => 0
    case CryptoRsaWeakKey => 1
    case CryptoSignatureSha1 => 2
    case OpsExpired => 3
    case OpsExpiringSoon => 4
    case OpsIncompleteChain => 5
    case OpsRevoked => 6
    case OpsSanMismatch => 7
    case OpsShadowExternal => 8
    case OpsShadowInternal => 9
    case OpsUntrustedRoot => 10
    case OpsWeakKey => 11
    case PciMissingOwner => 12
    case PciNotInVault => 13
    case PciUntaggedProd => 14
    case Sc081ExpiryCritical => 15
    case Sc081ExpiryExpired => 16
    case Sc081ExpiryWarning => 17
    case Sc081Validity199 => 18
    case Sc081Validity47 => 19
    case Sc081Validity64 => 20
    case Sc081Validity99 => 21
  }

  /** Severity first, then pack and rule name. A rule name starts with its pack's name, so
      the alphabetical place of the rule decides both. */
  function SortKey(f: Finding): nat {
    SeverityRank(f.severity) * 22 + RuleOrder(f.rule)
  }

  function SortFindings(fs: seq<Finding>): seq<Finding> {
    StableSort(fs, SortKey)
  }

  // ----- counting -----

  datatype Measure = Violations | PciFindings | OfSeverity(severity: Severity) | OfPack(pack: Pack)

  predicate IsViolation(f: Finding) {
    f.pack.Sc081Pack? && !f.severity.Info?
  }

  predicate Counts(m: Measure, f: Finding) {
    match m
    case Violations => IsViolation(f)
    case PciFindings => f.pack.PciPack?
    case OfSeverity(v) => f.severity == v
    case OfPack(p) => f.pack == p
  }

  function Tally(fs: seq<Finding>, m: Measure): nat {
    Count(fs, (f: Finding) => Counts(m, f))
  }

  lemma TallySnoc(fs: seq<Finding>, f: Finding, m: Measure)
    ensures Tally(fs + [f], m) == Tally(fs, m) + if Counts(m, f) then 1 else 0
  {
    CountSnoc(fs, f, (f: Finding) => Counts(m, f));
  }

  lemma TallyConcat(a: seq<Finding>, b: seq<Finding>, m: Measure)
    ensures Tally(a + b, m) == Tally(a, m) + Tally(b, m)
  {
    CountConcat(a, b, (f: Finding) => Counts(m, f));
  }

  lemma TallySorted(fs: seq<Finding>, m: Measure)
    ensures Tally(SortFindings(fs), m) == Tally(fs, m)
  {
    SortCounts(fs, SortKey, (f: Finding) => Counts(m, f));
  }

  function PacksOf(c: Cert, now: Time): seq<Finding> {
    EvaluateSc081(c, now) + (EvaluatePci(c) + EvaluateCrypto(c))
  }

  function EvaluateCert(c: Cert, now: Time): seq<Finding> {
    SortFindings(PacksOf(c, now))
  }

  function AllFindings(certs: seq<Cert>, now: Time, n: nat): seq<Finding>
    requires n <= |certs|
  {
    if n == 0 then [] else AllFindings(certs, now, n - 1) + EvaluateCert(certs[n - 1], now)
  }

  ghost predicate NoSc081(fs: seq<Finding>) {
    forall k :: 0 <= k < |fs| ==> !fs[k].pack.Sc081Pack?
  }

  lemma {:induction false} NoneCounted(fs: seq<Finding>)
    requires NoSc081(fs)
    ensures Tally(fs, Violations) == 0
  {
    if fs != [] {
      NoneCounted(fs[..|fs| - 1]);
    }
  }

  lemma OtherPacks(c: Cert)
    ensures NoSc081(EvaluatePci(c) + EvaluateCrypto(c))
  {
    assert NoSc081(EvaluatePci(c));
    assert NoSc081(EvaluateCrypto(c));
  }

  lemma OnlySc081Counts(c: Cert, now: Time)
    ensures Tally(EvaluateCert(c, now), Violations) == Tally(EvaluateSc081(c, now), Violations)
  {
    var others := EvaluatePci(c) + EvaluateCrypto(c);
    TallySorted(PacksOf(c, now), Violations);
    TallyConcat(EvaluateSc081(c, now), others, Violations);
    OtherPacks(c);
    NoneCounted(others);
  }

  // ----- which certificates violate SC-081 -----

  /** Valid for longer than the ceiling in force when it was issued. */
  predicate TooLongValid(c: Cert) {
    exists k :: 0 <= k < |CEILINGS| && CEILINGS[k].effective <= c.notBefore
                && c.notAfter - c.notBefore > CEILINGS[k].maxDays * DAY
  }

  /** Expired or within 61 days of it, and not an internal certificate outside production. */
  predicate ExpiryCounts(c: Cert, now: Time) {
    c.notAfter < now + 61 * DAY && !(c.scope.Internal? && c.environment != Some("prod"))
  }

  lemma TooLongIff(c: Cert)
    ensures ValidityFinding(c).Some? <==> TooLongValid(c)
  {
    StrictestCeiling(c.notBefore);
    assert CEILINGS[0] in CEILINGS && CEILINGS[1] in CEILINGS && CEILINGS[2] in CEILINGS && CEILINGS[3] in CEILINGS;
  }

  lemma TallyTwo(a: Option<Finding>, b: Option<Finding>, m: Measure)
    ensures Tally(Opt(a) + Opt(b), m)
         == (if a.Some? && Counts(m, a.value) then 1 else 0) + if b.Some? && Counts(m, b.value) then 1 else 0
  {
    TallyOpt(a, m);
    TallyOpt(b, m);
    TallyConcat(Opt(a), Opt(b), m);
  }

  lemma TallyOpt(a: Option<Finding>, m: Measure)
    ensures Tally(Opt(a), m) == if a.Some? && Counts(m, a.value) then 1 else 0
  {
    if a.Some? {
      TallySnoc([], a.value, m);
      assert [] + [a.value] == [a.value];
    }
  }

  function ViolationsBy(c: Cert, now: Time): nat {
    (if TooLongValid(c) then 1 else 0) + if ExpiryCounts(c, now) then 1 else 0
  }

  /** A certificate violates SC-081 once for each of the two. */
  lemma ViolationsOfCert(c: Cert, now: Time)
    ensures Tally(EvaluateCert(c, now), Violations) == ViolationsBy(c, now)
  {
    OnlySc081Counts(c, now);
    TallyTwo(ValidityFinding(c), ExpiryFinding(c, now), Violations);
    TooLongIff(c);
    ExpiryWindows(c, now);
  }

  /** The count of the whole estate, without any finding. */
  function ViolationsIn(certs: seq<Cert>, now: Time, n: nat): nat
    requires n <= |certs|
  {
    if n == 0 then 0
    else ViolationsIn(certs, now, n - 1) + ViolationsBy(certs[n - 1], now)
  }

  lemma OneMoreCert(certs: seq<Cert>, now: Time, n: nat)
    requires n < |certs|
    ensures Tally(AllFindings(certs, now, n + 1), Violations)
         == Tally(AllFindings(certs, now, n), Violations) + ViolationsBy(certs[n], now)
  {
    ViolationsOfCert(certs[n], now);
    TallyConcat(AllFindings(certs, now, n), EvaluateCert(certs[n], now), Violations);
  }

  ghost predicate ReportsViolations(certs: seq<Cert>, now: Time, n: nat)
    requires n <= |certs|
  {
    Tally(AllFindings(certs, now, n), Violations) == ViolationsIn(certs, now, n)
  }

  lemma NoneReported(certs: seq<Cert>, now: Time)
    ensures ReportsViolations(certs, now, 0)
  {
  }

  lemma OneMoreReported(certs: seq<Cert>, now: Time, n: nat)
    requires n < |certs| && ReportsViolations(certs, now, n)
    ensures ReportsViolations(certs, now, n + 1)
  {
    OneMoreCert(certs, now, n);
  }

  /** The violations reported for an estate are the certificates that are valid for too long and
      those whose expiry counts. */
  lemma {:induction false} ViolationsMeaning(certs: seq<Cert>, now: Time, n: nat)
    requires n <= |certs|
    ensures ReportsViolations(certs, now, n)
    decreases n
  {
    if n == 0 {
      NoneReported(certs, now);
    } else {
      var m := n - 1;
      ViolationsMeaning(certs, now, m);
      OneMoreReported(certs, now, m);
    }
  }

  /** Severities from the gravest on; high and warning weigh the same here. */
  predicate Graver(a: Severity, b: Severity) {
    match a
    case Critical => !b.Critical?
    case High => b.Medium? || b.Low? || b.Info?
    case Warning => b.Medium? || b.Low? || b.Info?
    case Medium => b.Low? || b.Info?
    case Low => b.Info?
    case Info => false
  }

  /** Sorted findings never have a graver one behind a lesser one, and findings of equal weight
      come in the order of their rules. */
  lemma SortedByGravity(fs: seq<Finding>, i: nat, k: nat)
    requires i < k < |SortFindings(fs)|
    ensures var f, g := SortFindings(fs)[i], SortFindings(fs)[k];
            !Graver(g.severity, f.severity)
            && (!Graver(f.severity, g.severity) ==> RuleOrder(f.rule) <= RuleOrder(g.rule))
  {
    SortMeaning(fs, SortKey);
    assert SortKey(SortFindings(fs)[i]) <= SortKey(SortFindings(fs)[k]);
  }

  // ----- the estate -----

  /** LIMIT and OFFSET over one snapshot. */
  function Page<T>(table: seq<T>, limit: nat, offset: nat): seq<T> {
    if offset >= |table| then []
    else if offset + limit <= |table| then table[offset..offset + limit]
    else table[offset..]
  }

  /** The page loop returns the whole list, each row once, in order. */
  method LoadAll<T>(table: seq<T>) returns (all: seq<T>)
    ensures all == table
  {
    all := [];
    var offset := 0;
    while true
      invariant offset == |all| <= |table| && all == table[..offset]
      decreases |table| - offset
    {
      var batch := Page(table, 500, offset);
      all := all + batch;
      offset := offset + |batch|;
      if offset >= |table| || |batch| == 0 {
        break;
      }
    }
  }

  datatype Summary = Summary(total: nat, bySeverity: map<Severity, nat>, byPack: map<Pack, nat>,
                             sc081Violations: nat, pciFindings: nat, findings: seq<Finding>)

  function CountOf<K>(m: map<K, nat>, k: K): nat {
    if k in m then m[k] else 0
  }

  /** The summary's findings are the estate's findings in order, and every counter counts them. */
  method EvaluateCerts(certs: seq<Cert>, now: Time) returns (s: Summary)
    ensures s.total == |certs| && s.findings == SortFindings(AllFindings(certs, now, |certs|))
    ensures Counted(s.findings, s.bySeverity, s.byPack, s.sc081Violations, s.pciFindings)
  {
    var all := [];
    var bySeverity: map<Severity, nat>, byPack: map<Pack, nat>, sc081, pci := map[], map[], 0, 0;
    for i := 0 to |certs|
      invariant all == AllFindings(certs, now, i)
      invariant Counted(all, bySeverity, byPack, sc081, pci)
    {
      bySeverity, byPack, sc081, pci := CountInto(EvaluateCert(certs[i], now), all, bySeverity, byPack, sc081, pci);
      all := all + EvaluateCert(certs[i], now);
    }
    CountedSorted(all, bySeverity, byPack, sc081, pci);
    s := Summary(|certs|, bySeverity, byPack, sc081, pci, SortFindings(all));
  }

  /** The loop over the findings of one certificate. */
  method CountInto(fs: seq<Finding>, ghost before: seq<Finding>, bySeverity0: map<Severity, nat>,
                   byPack0: map<Pack, nat>, sc0: nat, pci0: nat)
    returns (bySeverity: map<Severity, nat>, byPack: map<Pack, nat>, sc081: nat, pci: nat)
    requires Counted(before, bySeverity0, byPack0, sc0, pci0)
    ensures Counted(before + fs, bySeverity, byPack, sc081, pci)
  {
    bySeverity, byPack, sc081, pci := bySeverity0, byPack0, sc0, pci0;
    assert before + fs[..0] == before;
    for k := 0 to |fs|
      invariant Counted(before + fs[..k], bySeverity, byPack, sc081, pci)
    {
      var f := fs[k];
      CountedOneMore(before + fs[..k], bySeverity, byPack, sc081, pci, f);
      assert before + fs[..k] + [f] == before + fs[..k + 1];
      bySeverity := bySeverity[f.severity := CountOf(bySeverity, f.severity) + 1];
      byPack := byPack[f.pack := CountOf(byPack, f.pack) + 1];
      if IsViolation(f) {
        sc081 := sc081 + 1;
      }
      if f.pack.PciPack? {
        pci := pci + 1;
      }
    }
    assert before + fs[..|fs|] == before + fs;
  }

  ghost predicate Counted(fs: seq<Finding>, bySeverity: map<Severity, nat>, byPack: map<Pack, nat>, sc081: nat, pci: nat) {
    && sc081 == Tally(fs, Violations)
    && pci == Tally(fs, PciFindings)
    && (forall v :: CountOf(bySeverity, v) == Tally(fs, OfSeverity(v)))
    && (forall p :: CountOf(byPack, p) == Tally(fs, OfPack(p)))
  }

  lemma CountedOneMore(fs: seq<Finding>, bySeverity: map<Severity, nat>, byPack: map<Pack, nat>, sc081: nat, pci: nat, f: Finding)
    requires Counted(fs, bySeverity, byPack, sc081, pci)
    ensures Counted(fs + [f],
                    bySeverity[f.severity := CountOf(bySeverity, f.severity) + 1],
                    byPack[f.pack := CountOf(byPack, f.pack) + 1],
                    if IsViolation(f) then sc081 + 1 else sc081,
                    if f.pack.PciPack? then pci + 1 else pci)
  {
    forall m: Measure ensures Tally(fs + [f], m) == Tally(fs, m) + if Counts(m, f) then 1 else 0 {
      TallySnoc(fs, f, m);
    }
  }

  lemma CountedSorted(fs: seq<Finding>, bySeverity: map<Severity, nat>, byPack: map<Pack, nat>, sc081: nat, pci: nat)
    requires Counted(fs, bySeverity, byPack, sc081, pci)
    ensures Counted(SortFindings(fs), bySeverity, byPack, sc081, pci)
  {
    forall m: Measure ensures Tally(SortFindings(fs), m) == Tally(fs, m) {
      TallySorted(fs, m);
    }
  }

  /** The fast count of SC-081 violations is the violation count the full evaluation reports
      at the same clock. */
  method CountSc081Violations(table: seq<Cert>, now: Time) returns (count: nat)
    ensures count == Tally(SortFindings(AllFindings(table, now, |table|)), Violations)
    ensures count == ViolationsIn(table, now, |table|)
  {
    var certs := LoadAll(table);
    count := 0;
    for i := 0 to |certs|
      invariant count == Tally(AllFindings(certs, now, i), Violations)
    {
      var n := CountViolations(EvaluateSc081(certs[i], now));
      OnlySc081Counts(certs[i], now);
      TallyConcat(AllFindings(certs, now, i), EvaluateCert(certs[i], now), Violations);
      count := count + n;
    }
    TallySorted(AllFindings(table, now, |table|), Violations);
    ViolationsMeaning(table, now, |table|);
  }

  method CountViolations(fs: seq<Finding>) returns (count: nat)
    ensures count == Tally(fs, Violations)
  {
    count := 0;
    for k := 0 to |fs|
      invariant count == Tally(fs[..k], Violations)
    {
      assert fs[..k + 1] == fs[..k] + [fs[k]];
      TallySnoc(fs[..k], fs[k], Violations);
      if IsViolation(fs[k]) {
        count := count + 1;
      }
    }
    assert fs[..|fs|] == fs;
  }
}
