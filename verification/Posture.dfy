/** Posture recompute: operational findings, the findings table, waivers and the risk score
    (internal/posture, internal/report/insight.go, internal/store/findings.go,
    internal/store/waivers.go). */
module Posture {
  import opened Wrappers
  import opened Backoff
  import opened Compliance

  // ----- operational findings -----

  datatype InsightType =
    | Expired | Revoked | ExpiringSoon | IncompleteChain | UntrustedRoot | SanMismatch
    | WeakKey | ShadowExternal | ShadowInternal

  datatype Insight = Insight(kind: InsightType, severity: Severity)

  function OptInsight(b: bool, kind: InsightType, severity: Severity): seq<Insight> {
    if b then [Insight(kind, severity)] else []
  }

  predicate IsWeakKey(c: Cert) {
    c.keyKind.Rsa? && 0 < c.keyBits < 2048
  }

  function StatusInsight(c: Cert): seq<Insight> {
    match c.status
    case Expired => [Insight(Expired, High)]
    case Revoked => [Insight(Revoked, Critical)]
    case ExpiringSoon => [Insight(ExpiringSoon, Medium)]
    case Valid => []
  }

  function ChainInsight(c: Cert): seq<Insight> {
    match c.chain
    case Incomplete => [Insight(IncompleteChain, Medium)]
    case UntrustedRoot => [Insight(InsightType.UntrustedRoot, Medium)]
    case _ => []
  }

  function ShadowInsight(c: Cert): seq<Insight> {
    if !c.managed.Unmanaged? then []
    else if c.scope.External? then [Insight(ShadowExternal, Info)]
    else [Insight(ShadowInternal, Low)]
  }

  function ClassifyCertificate(c: Cert): seq<Insight> {
    StatusInsight(c) + (ChainInsight(c) + (OptInsight(!c.hostnameMatches, SanMismatch, Low)
    + (OptInsight(IsWeakKey(c), WeakKey, High) + ShadowInsight(c))))
  }

  function OpsRuleId(kind: InsightType): RuleId {
    match kind
    case Expired => OpsExpired
    case Revoked => OpsRevoked
    case ExpiringSoon => OpsExpiringSoon
    case IncompleteChain => OpsIncompleteChain
    case UntrustedRoot => OpsUntrustedRoot
    case SanMismatch => OpsSanMismatch
    case WeakKey => OpsWeakKey
    case ShadowExternal => OpsShadowExternal
    case ShadowInternal => OpsShadowInternal
  }

  predicate IsExpiryRule(r: RuleId) {
    r.Sc081ExpiryExpired? || r.Sc081ExpiryCritical? || r.Sc081ExpiryWarning?
  }

  predicate ExpiryViolation(f: Finding) {
    f.pack.Sc081Pack? && !f.severity.Info? && IsExpiryRule(f.rule)
  }

  predicate HasSc081ExpiryViolation(fs: seq<Finding>) {
    exists k :: 0 <= k < |fs| && ExpiryViolation(fs[k])
  }

  predicate Skipped(kind: InsightType, skipExpiry: bool) {
    skipExpiry && (kind.Expired? || kind.ExpiringSoon?)
  }

  function OpsFindings(insights: seq<Insight>, skipExpiry: bool, n: nat): seq<Finding>
    requires n <= |insights|
  {
    if n == 0 then []
    else
      var i := insights[n - 1];
      OpsFindings(insights, skipExpiry, n - 1)
      + if Skipped(i.kind, skipExpiry) then [] else [Finding(OpsRuleId(i.kind), OpsPack, i.severity)]
  }

  function EvaluateOps(c: Cert, sc081: seq<Finding>): seq<Finding> {
    var insights := ClassifyCertificate(c);
    OpsFindings(insights, HasSc081ExpiryViolation(sc081), |insights|)
  }

  function EvaluateCertAll(c: Cert, now: Time): seq<Finding> {
    var sc081 := EvaluateSc081(c, now);
    sc081 + (EvaluatePci(c) + (EvaluateCrypto(c) + EvaluateOps(c, sc081)))
  }

  /** The loops behind EvaluateOps: the search for a counted expiry finding, then the insights
      turned into findings one by one. */
  method ConvertInsights(c: Cert, sc081: seq<Finding>) returns (out: seq<Finding>)
    ensures out == EvaluateOps(c, sc081)
  {
    var skipExpiry := false;
    for i := 0 to |sc081|
      invariant skipExpiry <==> exists k :: 0 <= k < i && ExpiryViolation(sc081[k])
    {
      if ExpiryViolation(sc081[i]) {
        skipExpiry := true;
      }
    }
    out := Convert(ClassifyCertificate(c), skipExpiry);
  }

  method Convert(insights: seq<Insight>, skipExpiry: bool) returns (out: seq<Finding>)
    ensures out == OpsFindings(insights, skipExpiry, |insights|)
  {
    out := [];
    for i := 0 to |insights|
      invariant out == OpsFindings(insights, skipExpiry, i)
    {
      if !Skipped(insights[i].kind, skipExpiry) {
        out := out + [Finding(OpsRuleId(insights[i].kind), OpsPack, insights[i].severity)];
      }
    }
  }

  method EvaluateAll(c: Cert, now: Time) returns (findings: seq<Finding>)
    ensures findings == EvaluateCertAll(c, now)
  {
    var sc081 := EvaluateSc081(c, now);
    var ops := ConvertInsights(c, sc081);
    findings := sc081 + (EvaluatePci(c) + (EvaluateCrypto(c) + ops));
  }

  // ----- rule ids are pairwise distinct -----

  /** Rules that exclude each other share a slot; evaluation fills the slots in order. */
  function Slot(r: RuleId): nat {
    match r
    case Sc081Validity47 => 0
    case Sc081Validity64 => 0
    case Sc081Validity99 => 0
    case Sc081Validity199 => 0
    case Sc081ExpiryExpired => 1
    case Sc081ExpiryCritical => 1
    case Sc081ExpiryWarning => 1
    case PciMissingOwner => 2
    case PciUntaggedProd => 3
    case PciNotInVault => 4
    case CryptoRsaWeakKey => 5
    case CryptoSignatureSha1 => 6
    case CryptoKeyEcdsaWeak => 7
    case OpsExpired => 8
    case OpsRevoked => 8
    case OpsExpiringSoon => 8
    case OpsIncompleteChain => 9
    case OpsUntrustedRoot => 9
    case OpsSanMismatch => 10
    case OpsWeakKey => 11
    case OpsShadowExternal => 12
    case OpsShadowInternal => 12
  }

  ghost predicate InSlots(fs: seq<Finding>, lo: nat, hi: nat) {
    && (forall i :: 0 <= i < |fs| ==> lo <= Slot(fs[i].rule) < hi)
    && (forall i, k :: 0 <= i < k < |fs| ==> Slot(fs[i].rule) < Slot(fs[k].rule))
  }

  lemma SlotsConcat(a: seq<Finding>, b: seq<Finding>, lo: nat, mid: nat, hi: nat)
    requires InSlots(a, lo, mid) && InSlots(b, mid, hi) && lo <= mid <= hi
    ensures InSlots(a + b, lo, hi)
  {
  }

  lemma OptSlot(f: Option<Finding>, slot: nat)
    requires f.Some? ==> Slot(f.value.rule) == slot
    ensures InSlots(Opt(f), slot, slot + 1)
  {
  }

  ghost predicate InsightSlots(ins: seq<Insight>, lo: nat, hi: nat) {
    && (forall i :: 0 <= i < |ins| ==> lo <= Slot(OpsRuleId(ins[i].kind)) < hi)
    && (forall i, k :: 0 <= i < k < |ins| ==> Slot(OpsRuleId(ins[i].kind)) < Slot(OpsRuleId(ins[k].kind)))
  }

  lemma InsightConcat(a: seq<Insight>, b: seq<Insight>, lo: nat, mid: nat, hi: nat)
    requires InsightSlots(a, lo, mid) && InsightSlots(b, mid, hi) && lo <= mid <= hi
    ensures InsightSlots(a + b, lo, hi)
  {
  }

  lemma OneInsight(ins: seq<Insight>, slot: nat)
    requires |ins| <= 1 && (|ins| == 1 ==> Slot(OpsRuleId(ins[0].kind)) == slot)
    ensures InsightSlots(ins, slot, slot + 1)
  {
  }

  lemma StatusSlot(c: Cert)
    ensures InsightSlots(StatusInsight(c), 8, 9)
  {
    OneInsight(StatusInsight(c), 8);
  }

  lemma ChainSlot(c: Cert)
    ensures InsightSlots(ChainInsight(c), 9, 10)
  {
    OneInsight(ChainInsight(c), 9);
  }

  lemma ShadowSlot(c: Cert)
    ensures InsightSlots(ShadowInsight(c), 12, 13)
  {
    OneInsight(ShadowInsight(c), 12);
  }

  lemma ClassifySlots(c: Cert)
    ensures InsightSlots(ClassifyCertificate(c), 8, 13)
  {
    var status, chain, shadow := StatusInsight(c), ChainInsight(c), ShadowInsight(c);
    var san, key := OptInsight(!c.hostnameMatches, SanMismatch, Low), OptInsight(IsWeakKey(c), WeakKey, High);
    StatusSlot(c);
    ChainSlot(c);
    OneInsight(san, 10);
    OneInsight(key, 11);
    ShadowSlot(c);
    FivePieces(status, chain, san, key, shadow);
  }

  lemma FivePieces(status: seq<Insight>, chain: seq<Insight>, san: seq<Insight>, key: seq<Insight>, shadow: seq<Insight>)
    requires InsightSlots(status, 8, 9) && InsightSlots(chain, 9, 10) && InsightSlots(san, 10, 11)
    requires InsightSlots(key, 11, 12) && InsightSlots(shadow, 12, 13)
    ensures InsightSlots(status + (chain + (san + (key + shadow))), 8, 13)
  {
    InsightConcat(key, shadow, 11, 12, 13);
    InsightConcat(san, key + shadow, 10, 11, 13);
    InsightConcat(chain, san + (key + shadow), 9, 10, 13);
    InsightConcat(status, chain + (san + (key + shadow)), 8, 9, 13);
  }

  lemma InsightInit(ins: seq<Insight>, lo: nat, hi: nat, n: nat)
    requires n < |ins| && InsightSlots(ins, lo, hi)
    ensures InsightSlots(ins[..n], lo, Slot(OpsRuleId(ins[n].kind)))
  {
  }

  lemma {:induction false} OpsSlots(ins: seq<Insight>, skip: bool, lo: nat, hi: nat, n: nat)
    requires n <= |ins| && InsightSlots(ins[..n], lo, hi) && lo <= hi
    ensures InSlots(OpsFindings(ins, skip, n), lo, hi)
  {
    if n > 0 {
      var last := ins[n - 1];
      var slot := Slot(OpsRuleId(last.kind));
      assert ins[..n][n - 1] == last && ins[..n][..n - 1] == ins[..n - 1];
      InsightInit(ins[..n], lo, hi, n - 1);
      OpsSlots(ins, skip, lo, slot, n - 1);
      OptSlot(Some(Finding(OpsRuleId(last.kind), OpsPack, last.severity)), slot);
      var one := if Skipped(last.kind, skip) then [] else [Finding(OpsRuleId(last.kind), OpsPack, last.severity)];
      SlotsConcat(OpsFindings(ins, skip, n - 1), one, lo, slot, hi);
    }
  }

  ghost predicate OnlyOps(fs: seq<Finding>, skip: bool) {
    forall k :: 0 <= k < |fs| ==> fs[k].pack.OpsPack? && (skip ==> !fs[k].rule.OpsExpired? && !fs[k].rule.OpsExpiringSoon?)
  }

  lemma {:induction false} OpsSkips(ins: seq<Insight>, skip: bool, n: nat)
    requires n <= |ins|
    ensures OnlyOps(OpsFindings(ins, skip, n), skip)
  {
    if n > 0 {
      OpsSkips(ins, skip, n - 1);
    }
  }

  lemma CeilingSlot(notBefore: Time)
    ensures CeilingFor(notBefore).Some? ==> Slot(CeilingFor(notBefore).value.rule) == 0
  {
    StrictestCeiling(notBefore);
    assert forall c :: c in CEILINGS ==> Slot(c.rule) == 0;
  }

  lemma Sc081Slots(c: Cert, now: Time)
    ensures InSlots(EvaluateSc081(c, now), 0, 2)
  {
    CeilingSlot(c.notBefore);
    OptSlot(ValidityFinding(c), 0);
    OptSlot(ExpiryFinding(c, now), 1);
    SlotsConcat(Opt(ValidityFinding(c)), Opt(ExpiryFinding(c, now)), 0, 1, 2);
  }

  lemma ThreeSlots(a: Option<Finding>, b: Option<Finding>, c: Option<Finding>, lo: nat)
    requires a.Some? ==> Slot(a.value.rule) == lo
    requires b.Some? ==> Slot(b.value.rule) == lo + 1
    requires c.Some? ==> Slot(c.value.rule) == lo + 2
    ensures InSlots(Opt(a) + Opt(b) + Opt(c), lo, lo + 3)
  {
    OptSlot(a, lo);
    OptSlot(b, lo + 1);
    OptSlot(c, lo + 2);
    SlotsConcat(Opt(a), Opt(b), lo, lo + 1, lo + 2);
    SlotsConcat(Opt(a) + Opt(b), Opt(c), lo, lo + 2, lo + 3);
  }

  lemma PciSlots(c: Cert)
    ensures InSlots(EvaluatePci(c), 2, 5)
  {
    var owner := When(c.scope.External? && MissingOwner(c.owner), PciMissingOwner, PciPack, Warning);
    var tags := When(IsProd(c.environment) && (MissingOwner(c.owner) || c.tags == []), PciUntaggedProd, PciPack, Warning);
    var vault := When(c.managed.Unmanaged? && c.scope.External? && IsProd(c.environment), PciNotInVault, PciPack, Info);
    ThreeSlots(owner, tags, vault, 2);
    assert EvaluatePci(c) == Opt(owner) + Opt(tags) + Opt(vault);
  }

  lemma CryptoSlots(c: Cert)
    ensures InSlots(EvaluateCrypto(c), 5, 8)
  {
    var rsa := When(c.keyKind.Rsa? && c.keyBits < 2048, CryptoRsaWeakKey, CryptoPack, Critical);
    var sha1 := When(c.sha1, CryptoSignatureSha1, CryptoPack, Critical);
    var ecdsa := When(c.keyKind.Ecdsa? && c.keyBits < 256, CryptoKeyEcdsaWeak, CryptoPack, Warning);
    ThreeSlots(rsa, sha1, ecdsa, 5);
    assert EvaluateCrypto(c) == Opt(rsa) + Opt(sha1) + Opt(ecdsa);
  }

  lemma OpsPackSlots(c: Cert, sc081: seq<Finding>)
    ensures InSlots(EvaluateOps(c, sc081), 8, 13)
  {
    var insights := ClassifyCertificate(c);
    ClassifySlots(c);
    assert insights[..|insights|] == insights;
    OpsSlots(insights, HasSc081ExpiryViolation(sc081), 8, 13, |insights|);
  }

  lemma AllSlots(c: Cert, now: Time)
    ensures InSlots(EvaluateCertAll(c, now), 0, 13)
  {
    var sc081 := EvaluateSc081(c, now);
    Sc081Slots(c, now);
    PciSlots(c);
    CryptoSlots(c);
    OpsPackSlots(c, sc081);
    FourPacks(sc081, EvaluatePci(c), EvaluateCrypto(c), EvaluateOps(c, sc081));
  }

  lemma FourPacks(sc081: seq<Finding>, pci: seq<Finding>, crypto: seq<Finding>, ops: seq<Finding>)
    requires InSlots(sc081, 0, 2) && InSlots(pci, 2, 5) && InSlots(crypto, 5, 8) && InSlots(ops, 8, 13)
    ensures InSlots(sc081 + (pci + (crypto + ops)), 0, 13)
  {
    SlotsConcat(crypto, ops, 5, 8, 13);
    SlotsConcat(pci, crypto + ops, 2, 5, 13);
    SlotsConcat(sc081, pci + (crypto + ops), 0, 2, 13);
  }

  ghost predicate DistinctRules(fs: seq<Finding>) {
    forall i, k :: 0 <= i < k < |fs| ==> fs[i].rule != fs[k].rule
  }

  /** No rule fires twice for a certificate. */
  lemma RulesAreDistinct(c: Cert, now: Time)
    ensures DistinctRules(EvaluateCertAll(c, now))
  {
    AllSlots(c, now);
  }

  /** A certificate is not blamed twice for its expiry: a counted SC-081 expiry finding and an
      operational one never appear together. */
  lemma ExpiryBlamedOnce(c: Cert, now: Time, f: Finding, g: Finding)
    requires f in EvaluateCertAll(c, now) && g in EvaluateCertAll(c, now) && ExpiryViolation(f)
    ensures !g.rule.OpsExpired? && !g.rule.OpsExpiringSoon?
  {
    var sc081 := EvaluateSc081(c, now);
    var insights := ClassifyCertificate(c);
    Sc081Slots(c, now);
    PciSlots(c);
    CryptoSlots(c);
    OtherPacks(c);
    OpsSkips(insights, HasSc081ExpiryViolation(sc081), |insights|);
    BlamedOnce(sc081, EvaluatePci(c), EvaluateCrypto(c), EvaluateOps(c, sc081), f, g);
  }

  lemma BlamedOnce(sc081: seq<Finding>, pci: seq<Finding>, crypto: seq<Finding>, ops: seq<Finding>, f: Finding, g: Finding)
    requires InSlots(sc081, 0, 2) && InSlots(pci, 2, 5) && InSlots(crypto, 5, 8)
    requires NoSc081(pci + crypto) && OnlyOps(ops, HasSc081ExpiryViolation(sc081))
    requires f in sc081 + (pci + (crypto + ops)) && g in sc081 + (pci + (crypto + ops)) && ExpiryViolation(f)
    ensures !g.rule.OpsExpired? && !g.rule.OpsExpiringSoon?
  {
    assert f !in pci + crypto && f !in ops;
    assert f in sc081;
    assert HasSc081ExpiryViolation(sc081);
  }

  // ----- the findings table -----

  type CertId = nat

  datatype Key = Key(cert: CertId, rule: RuleId)

  datatype Row = Row(pack: Pack, severity: Severity, policy: Option<nat>, waived: bool, open: bool)

  datatype Upsert = Upsert(rule: RuleId, pack: Pack, severity: Severity, policy: Option<nat>, waived: bool)

  datatype Waiver = Waiver(cert: CertId, rule: RuleId, expires: Time, revoked: bool)

  datatype OpenRow = OpenRow(rule: RuleId, row: Row)

  datatype Reason = Reason(rule: RuleId, pack: Pack, severity: Severity, score: nat, waived: bool)

  datatype Risk = Risk(score: nat, reasons: seq<Reason>)

  predicate ActiveWaiver(waivers: seq<Waiver>, cert: CertId, rule: RuleId, now: Time) {
    exists k :: 0 <= k < |waivers| && waivers[k].cert == cert && waivers[k].rule == rule
                && !waivers[k].revoked && waivers[k].expires > now
  }

  function UpsertOf(f: Finding, cert: CertId, policy: Option<nat>, waivers: seq<Waiver>, now: Time): Upsert {
    Upsert(f.rule, f.pack, MapPackSeverity(f.pack, f.severity), policy, ActiveWaiver(waivers, cert, f.rule, now))
  }

  function UpsertsOf(fs: seq<Finding>, cert: CertId, policy: Option<nat>, waivers: seq<Waiver>, now: Time): (ups: seq<Upsert>)
    ensures |ups| == |fs|
  {
    seq(|fs|, i requires 0 <= i < |fs| => UpsertOf(fs[i], cert, policy, waivers, now))
  }

  function RowOf(u: Upsert): Row {
    Row(u.pack, u.severity, u.policy, u.waived, true)
  }

  function AfterUpserts(t: map<Key, Row>, cert: CertId, ups: seq<Upsert>, n: nat): map<Key, Row>
    requires n <= |ups|
  {
    if n == 0 then t else AfterUpserts(t, cert, ups, n - 1)[Key(cert, ups[n - 1].rule) := RowOf(ups[n - 1])]
  }

  function RulesOf(ups: seq<Upsert>): set<RuleId> {
    set i | 0 <= i < |ups| :: ups[i].rule
  }

  function ResolveMissing(t: map<Key, Row>, cert: CertId, seen: set<RuleId>): map<Key, Row> {
    map k | k in t :: if k.cert == cert && k.rule !in seen then t[k].(open := false) else t[k]
  }

  function Upserted(t: map<Key, Row>, cert: CertId, ups: seq<Upsert>): map<Key, Row> {
    ResolveMissing(AfterUpserts(t, cert, ups, |ups|), cert, RulesOf(ups))
  }

  const RULES: seq<RuleId> := [
    CryptoKeyEcdsaWeak, CryptoRsaWeakKey, CryptoSignatureSha1,
    OpsExpired, OpsExpiringSoon, OpsIncompleteChain, OpsRevoked, OpsSanMismatch,
    OpsShadowExternal, OpsShadowInternal, OpsUntrustedRoot, OpsWeakKey,
    PciMissingOwner, PciNotInVault, PciUntaggedProd,
    Sc081ExpiryCritical, Sc081ExpiryExpired, Sc081ExpiryWarning,
    Sc081Validity199, Sc081Validity47, Sc081Validity64, Sc081Validity99
  ]

  lemma RulesAreListed(r: RuleId)
    ensures RULES[RuleOrder(r)] == r && r in RULES
  {
  }

  predicate IsOpen(t: map<Key, Row>, cert: CertId, rule: RuleId) {
    Key(cert, rule) in t && t[Key(cert, rule)].open
  }

  function OpenRows(t: map<Key, Row>, cert: CertId, rules: seq<RuleId>): seq<OpenRow> {
    if rules == [] then []
    else
      var r := rules[|rules| - 1];
      OpenRows(t, cert, rules[..|rules| - 1]) + if IsOpen(t, cert, r) then [OpenRow(r, t[Key(cert, r)])] else []
  }

  lemma {:induction false} OpenRowsMeaning(t: map<Key, Row>, cert: CertId, rules: seq<RuleId>, x: OpenRow)
    ensures x in OpenRows(t, cert, rules) <==> x.rule in rules && IsOpen(t, cert, x.rule) && x.row == t[Key(cert, x.rule)]
  {
    if rules != [] {
      OpenRowsMeaning(t, cert, rules[..|rules| - 1], x);
      assert rules == rules[..|rules| - 1] + [rules[|rules| - 1]];
    }
  }

  function ReasonsOf(rows: seq<OpenRow>): (rs: seq<Reason>)
    ensures |rs| == |rows|
  {
    seq(|rows|, i requires 0 <= i < |rows| =>
      Reason(rows[i].rule, rows[i].row.pack, rows[i].row.severity, ScoreSeverity(rows[i].row.severity), rows[i].row.waived))
  }

  /** The highest score among the rows no waiver covers. */
  function MaxUnwaived(rows: seq<OpenRow>): nat {
    if rows == [] then 0
    else
      var rest, last := MaxUnwaived(rows[..|rows| - 1]), rows[|rows| - 1].row;
      if !last.waived && ScoreSeverity(last.severity) > rest then ScoreSeverity(last.severity) else rest
  }

  lemma {:induction false} MaxUnwaivedMeaning(rows: seq<OpenRow>)
    ensures forall x :: x in rows && !x.row.waived ==> ScoreSeverity(x.row.severity) <= MaxUnwaived(rows)
    ensures MaxUnwaived(rows) == 0 || exists x :: x in rows && !x.row.waived && ScoreSeverity(x.row.severity) == MaxUnwaived(rows)
  {
    if rows != [] {
      var init, last := rows[..|rows| - 1], rows[|rows| - 1];
      MaxUnwaivedMeaning(init);
      assert rows == init + [last];
      assert last in rows;
    }
  }

  function RiskOf(t: map<Key, Row>, cert: CertId): Risk {
    var rows := OpenRows(t, cert, RULES);
    Risk(MaxUnwaived(rows), ReasonsOf(rows))
  }

  function Recomputed(t: map<Key, Row>, id: CertId, c: Cert, policy: Option<nat>, waivers: seq<Waiver>, now: Time): map<Key, Row> {
    Upserted(t, id, UpsertsOf(EvaluateCertAll(c, now), id, policy, waivers, now))
  }

  datatype WaiverReply = Created | ActorRequired | ReasonRequired | AlreadyExpired

  class PostureStore {
    var certs: map<CertId, Cert>
    var findings: map<Key, Row>
    var waivers: seq<Waiver>
    var policy: Option<nat>
    var risk: map<CertId, Risk>

    constructor (certs: map<CertId, Cert>, policy: Option<nat>)
      ensures this.certs == certs && this.policy == policy && findings == map[] && waivers == [] && risk == map[]
    {
      this.certs, this.policy := certs, policy;
      findings, waivers, risk := map[], [], map[];
    }

    method CreateWaiver(cert: CertId, rule: RuleId, reason: string, actor: string, expires: Time, now: Time)
      returns (reply: WaiverReply)
      modifies this`waivers
      ensures reply.Created? <==> actor != "" && reason != "" && expires > now
      ensures waivers == if reply.Created? then old(waivers) + [Waiver(cert, rule, expires, false)] else old(waivers)
      ensures reply.Created? ==> ActiveWaiver(waivers, cert, rule, now)
    {
      if actor == "" {
        return ActorRequired;
      }
      if reason == "" {
        return ReasonRequired;
      }
      if expires <= now {
        return AlreadyExpired;
      }
      waivers := waivers + [Waiver(cert, rule, expires, false)];
      assert waivers[|waivers| - 1] == Waiver(cert, rule, expires, false);
      reply := Created;
    }

    method RevokeWaiver(k: nat) returns (ok: bool)
      modifies this`waivers
      ensures ok <==> k < |old(waivers)| && !old(waivers)[k].revoked
      ensures waivers == if ok then old(waivers)[k := old(waivers)[k].(revoked := true)] else old(waivers)
    {
      ok := k < |waivers| && !waivers[k].revoked;
      if ok {
        waivers := waivers[k := waivers[k].(revoked := true)];
      }
    }

    method UpsertFindings(cert: CertId, ups: seq<Upsert>) returns (rows: seq<OpenRow>)
      modifies this`findings
      ensures findings == Upserted(old(findings), cert, ups)
      ensures rows == OpenRows(findings, cert, RULES)
    {
      var seen: set<RuleId> := {};
      for i := 0 to |ups|
        invariant findings == AfterUpserts(old(findings), cert, ups, i)
        invariant seen == set k | 0 <= k < i :: ups[k].rule
      {
        seen := seen + {ups[i].rule};
        findings := findings[Key(cert, ups[i].rule) := RowOf(ups[i])];
      }
      findings := ResolveMissing(findings, cert, seen);
      rows := ListOpenFindings(cert);
    }

    method ListOpenFindings(cert: CertId) returns (rows: seq<OpenRow>)
      ensures rows == OpenRows(findings, cert, RULES)
    {
      rows := [];
      for i := 0 to |RULES|
        invariant rows == OpenRows(findings, cert, RULES[..i])
      {
        assert RULES[..i + 1][..i] == RULES[..i];
        if IsOpen(findings, cert, RULES[i]) {
          rows := rows + [OpenRow(RULES[i], findings[Key(cert, RULES[i])])];
        }
      }
      assert RULES[..|RULES|] == RULES;
    }

    method MapForPersist(raw: seq<Finding>, id: CertId, now: Time) returns (ups: seq<Upsert>)
      ensures ups == UpsertsOf(raw, id, policy, waivers, now)
    {
      ups := [];
      for i := 0 to |raw|
        invariant ups == UpsertsOf(raw, id, policy, waivers, now)[..i]
      {
        ups := ups + [UpsertOf(raw[i], id, policy, waivers, now)];
      }
    }

    /** False: the certificate is not in the inventory. */
    method RecomputeCert(id: CertId, now: Time) returns (ok: bool)
      modifies this`findings, this`risk
      ensures ok <==> id in certs
      ensures !ok ==> findings == old(findings) && risk == old(risk)
      ensures ok ==> && findings == Recomputed(old(findings), id, certs[id], policy, waivers, now)
                     && risk == old(risk)[id := RiskOf(findings, id)]
    {
      if id !in certs {
        return false;
      }
      ok := true;
      var raw := EvaluateAll(certs[id], now);
      var ups := MapForPersist(raw, id, now);
      var rows := UpsertFindings(id, ups);
      var score, reasons := ScoreFromFindings(rows);
      risk := risk[id := Risk(score, reasons)];
    }
  }

  method ScoreFromFindings(rows: seq<OpenRow>) returns (score: nat, reasons: seq<Reason>)
    ensures score == MaxUnwaived(rows) && reasons == ReasonsOf(rows)
  {
    score, reasons := 0, [];
    for i := 0 to |rows|
      invariant score == MaxUnwaived(rows[..i]) && reasons == ReasonsOf(rows)[..i]
    {
      var r := rows[i].row;
      var s := ScoreSeverity(r.severity);
      reasons := reasons + [Reason(rows[i].rule, r.pack, r.severity, s, r.waived)];
      assert rows[..i + 1][..i] == rows[..i];
      if r.waived {
        continue;
      }
      if s > score {
        score := s;
      }
    }
    assert rows[..|rows|] == rows && ReasonsOf(rows)[..|rows|] == ReasonsOf(rows);
  }

  // ----- what a recompute achieves -----

  ghost predicate DistinctUpserts(ups: seq<Upsert>) {
    forall i, k :: 0 <= i < k < |ups| ==> ups[i].rule != ups[k].rule
  }

  lemma {:induction false} AfterUpsertsMeaning(t: map<Key, Row>, cert: CertId, ups: seq<Upsert>, n: nat)
    requires n <= |ups| && DistinctUpserts(ups)
    ensures forall i :: 0 <= i < n ==> Key(cert, ups[i].rule) in AfterUpserts(t, cert, ups, n)
                                       && AfterUpserts(t, cert, ups, n)[Key(cert, ups[i].rule)] == RowOf(ups[i])
    ensures forall k: Key :: k.cert != cert || (forall i :: 0 <= i < n ==> ups[i].rule != k.rule) ==>
              (k in AfterUpserts(t, cert, ups, n) <==> k in t) && (k in t ==> AfterUpserts(t, cert, ups, n)[k] == t[k])
  {
    if n > 0 {
      AfterUpsertsMeaning(t, cert, ups, n - 1);
    }
  }

  /** The table after an upsert, row by row: evaluated rules are open as evaluated, other open
      rows of the certificate are resolved, other certificates are untouched. */
  lemma UpsertedMeaning(t: map<Key, Row>, cert: CertId, ups: seq<Upsert>, k: Key)
    requires DistinctUpserts(ups)
    ensures var after := Upserted(t, cert, ups);
            && (forall i :: 0 <= i < |ups| && k == Key(cert, ups[i].rule) ==> k in after && after[k] == RowOf(ups[i]))
            && (k.cert == cert && k.rule !in RulesOf(ups) ==>
                  (k in after <==> k in t) && (k in t ==> after[k] == t[k].(open := false)))
            && (k.cert != cert ==> (k in after <==> k in t) && (k in t ==> after[k] == t[k]))
  {
    AfterUpsertsMeaning(t, cert, ups, |ups|);
    assert forall i :: 0 <= i < |ups| ==> ups[i].rule in RulesOf(ups);
    assert k.rule !in RulesOf(ups) ==> forall i :: 0 <= i < |ups| ==> ups[i].rule != k.rule;
  }

  lemma UpsertsDistinct(c: Cert, id: CertId, policy: Option<nat>, waivers: seq<Waiver>, now: Time)
    ensures DistinctUpserts(UpsertsOf(EvaluateCertAll(c, now), id, policy, waivers, now))
  {
    RulesAreDistinct(c, now);
  }

  ghost predicate Evaluated(c: Cert, now: Time, rule: RuleId) {
    exists k :: 0 <= k < |EvaluateCertAll(c, now)| && EvaluateCertAll(c, now)[k].rule == rule
  }

  lemma EvaluatedRules(c: Cert, id: CertId, policy: Option<nat>, waivers: seq<Waiver>, now: Time, rule: RuleId)
    ensures rule in RulesOf(UpsertsOf(EvaluateCertAll(c, now), id, policy, waivers, now)) <==> Evaluated(c, now, rule)
  {
    var fs := EvaluateCertAll(c, now);
    var ups := UpsertsOf(fs, id, policy, waivers, now);
    assert forall i :: 0 <= i < |fs| ==> ups[i].rule == fs[i].rule;
  }

  /** After a recompute the open findings of the certificate are exactly the rules that fire
      for it, and every other row keeps its contents but is resolved if it was this
      certificate's. */
  lemma OpenIffEvaluated(t: map<Key, Row>, id: CertId, c: Cert, policy: Option<nat>, waivers: seq<Waiver>, now: Time, rule: RuleId)
    ensures var after := Recomputed(t, id, c, policy, waivers, now);
            && (IsOpen(after, id, rule) <==> Evaluated(c, now, rule))
            && (Key(id, rule) in t ==> Key(id, rule) in after)
            && (forall other :: other != id ==>
                  (Key(other, rule) in after <==> Key(other, rule) in t)
                  && (Key(other, rule) in t ==> after[Key(other, rule)] == t[Key(other, rule)]))
  {
    var ups := UpsertsOf(EvaluateCertAll(c, now), id, policy, waivers, now);
    UpsertsDistinct(c, id, policy, waivers, now);
    EvaluatedRules(c, id, policy, waivers, now, rule);
    UpsertedMeaning(t, id, ups, Key(id, rule));
    forall other | other != id
      ensures (Key(other, rule) in Upserted(t, id, ups) <==> Key(other, rule) in t)
              && (Key(other, rule) in t ==> Upserted(t, id, ups)[Key(other, rule)] == t[Key(other, rule)])
    {
      UpsertedMeaning(t, id, ups, Key(other, rule));
    }
  }

  /** An open row holds the mapped severity, the policy version and the waiver of its rule. */
  lemma OpenRowContents(t: map<Key, Row>, id: CertId, c: Cert, policy: Option<nat>, waivers: seq<Waiver>, now: Time, f: Finding)
    requires f in EvaluateCertAll(c, now)
    ensures var after := Recomputed(t, id, c, policy, waivers, now);
            Key(id, f.rule) in after
            && after[Key(id, f.rule)]
               == Row(f.pack, MapPackSeverity(f.pack, f.severity), policy, ActiveWaiver(waivers, id, f.rule, now), true)
  {
    var fs := EvaluateCertAll(c, now);
    var ups := UpsertsOf(fs, id, policy, waivers, now);
    UpsertsDistinct(c, id, policy, waivers, now);
    UpsertedMeaning(t, id, ups, Key(id, f.rule));
    var k :| 0 <= k < |fs| && fs[k] == f;
    assert ups[k].rule == f.rule;
  }

  function ScoreOf(f: Finding): nat {
    ScoreSeverity(MapPackSeverity(f.pack, f.severity))
  }

  /** The risk score is the greatest score of the findings no waiver covers. */
  lemma ScoreIsMaxUnwaived(t: map<Key, Row>, id: CertId, c: Cert, policy: Option<nat>, waivers: seq<Waiver>, now: Time)
    ensures var score := RiskOf(Recomputed(t, id, c, policy, waivers, now), id).score;
            && (forall f :: f in EvaluateCertAll(c, now) && !ActiveWaiver(waivers, id, f.rule, now) ==> ScoreOf(f) <= score)
            && (score == 0 || exists f :: f in EvaluateCertAll(c, now) && !ActiveWaiver(waivers, id, f.rule, now)
                                          && ScoreOf(f) == score)
  {
    var after := Recomputed(t, id, c, policy, waivers, now);
    var rows := OpenRows(after, id, RULES);
    MaxUnwaivedMeaning(rows);
    forall f | f in EvaluateCertAll(c, now) && !ActiveWaiver(waivers, id, f.rule, now) ensures ScoreOf(f) <= MaxUnwaived(rows) {
      OpenRowContents(t, id, c, policy, waivers, now, f);
      RulesAreListed(f.rule);
      OpenRowsMeaning(after, id, RULES, OpenRow(f.rule, after[Key(id, f.rule)]));
    }
    if MaxUnwaived(rows) > 0 {
      var x :| x in rows && !x.row.waived && ScoreSeverity(x.row.severity) == MaxUnwaived(rows);
      OpenRowsMeaning(after, id, RULES, x);
      OpenIffEvaluated(t, id, c, policy, waivers, now, x.rule);
      var fs := EvaluateCertAll(c, now);
      var k :| 0 <= k < |fs| && fs[k].rule == x.rule;
      OpenRowContents(t, id, c, policy, waivers, now, fs[k]);
    }
  }

  /** Recomputing twice at the same clock changes nothing. */
  lemma RecomputeIsIdempotent(t: map<Key, Row>, id: CertId, c: Cert, policy: Option<nat>, waivers: seq<Waiver>, now: Time)
    ensures var once := Recomputed(t, id, c, policy, waivers, now);
            Recomputed(once, id, c, policy, waivers, now) == once
  {
    var ups := UpsertsOf(EvaluateCertAll(c, now), id, policy, waivers, now);
    UpsertsDistinct(c, id, policy, waivers, now);
    UpsertTwice(t, id, ups);
  }

  lemma UpsertTwice(t: map<Key, Row>, id: CertId, ups: seq<Upsert>)
    requires DistinctUpserts(ups)
    ensures Upserted(Upserted(t, id, ups), id, ups) == Upserted(t, id, ups)
  {
    var once := Upserted(t, id, ups);
    var twice := Upserted(once, id, ups);
    forall k: Key ensures (k in once <==> k in twice) && (k in once ==> twice[k] == once[k]) {
      UpsertedMeaning(t, id, ups, k);
      UpsertedMeaning(once, id, ups, k);
      if k.cert == id && k.rule in RulesOf(ups) {
        var i :| 0 <= i < |ups| && ups[i].rule == k.rule;
        assert k == Key(id, ups[i].rule);
      }
    }
  }

  /** More waivers never raise the score. */
  lemma WaiversNeverRaise(t: map<Key, Row>, id: CertId, c: Cert, policy: Option<nat>,
                          waivers: seq<Waiver>, more: seq<Waiver>, now: Time)
    requires forall w :: w in waivers ==> w in more
    ensures RiskOf(Recomputed(t, id, c, policy, more, now), id).score
            <= RiskOf(Recomputed(t, id, c, policy, waivers, now), id).score
  {
    ScoreIsMaxUnwaived(t, id, c, policy, waivers, now);
    ScoreIsMaxUnwaived(t, id, c, policy, more, now);
    forall rule | ActiveWaiver(waivers, id, rule, now) ensures ActiveWaiver(more, id, rule, now) {
      var k :| 0 <= k < |waivers| && waivers[k].cert == id && waivers[k].rule == rule
               && !waivers[k].revoked && waivers[k].expires > now;
      assert waivers[k] in more;
    }
  }
}
