/** What a recompute finds, told by the columns of the certificate: when each rule is open, how
    severe it is, and what score comes of it. */
module PostureRules {
  import opened Wrappers
  import opened Backoff
  import opened Compliance
  import opened Posture
  import Certificates

  // ----- the rules -----

  predicate InProduction(c: Cert) {
    c.environment == Some("prod")
  }

  predicate Unowned(c: Cert) {
    c.owner.None? || c.owner == Some("")
  }

  /** Inside the windows of SC-081, and not merely for information. */
  predicate CountedExpiry(c: Cert, now: Time) {
    c.notAfter < now + 61 * DAY && (InProduction(c) || !c.scope.Internal?)
  }

  /** Issued from the first day on, before the second, and valid for more than so many days. */
  predicate TooLong(c: Cert, from: nat, until: Option<nat>, days: nat) {
    && from * DAY <= c.notBefore && (until.None? || c.notBefore < until.value * DAY)
    && c.notAfter - c.notBefore > days * DAY
  }

  /** When a rule fires; days count from 1 January of year 1. */
  predicate Fires(c: Cert, now: Time, rule: RuleId) {
    match rule
    case Sc081Validity199 => TooLong(c, 739689, Some(740054), 199)
    case Sc081Validity99 => TooLong(c, 740054, Some(740420), 99)
    case Sc081Validity64 => TooLong(c, 740420, Some(740785), 64)
    case Sc081Validity47 => TooLong(c, 740785, None, 47)
    case Sc081ExpiryExpired => c.notAfter < now
    case Sc081ExpiryCritical => now <= c.notAfter < now + 15 * DAY
    case Sc081ExpiryWarning => now + 15 * DAY <= c.notAfter < now + 61 * DAY
    case PciMissingOwner => c.scope.External? && Unowned(c)
    case PciUntaggedProd => InProduction(c) && (Unowned(c) || c.tags == [])
    case PciNotInVault => InProduction(c) && c.scope.External? && c.managed.Unmanaged?
    case CryptoRsaWeakKey => c.keyKind.Rsa? && c.keyBits < 2048
    case CryptoSignatureSha1 => c.sha1
    case CryptoKeyEcdsaWeak => c.keyKind.Ecdsa? && c.keyBits < 256
    case OpsExpired => c.status.Expired? && !CountedExpiry(c, now)
    case OpsRevoked => c.status.Revoked?
    case OpsExpiringSoon => c.status.ExpiringSoon? && !CountedExpiry(c, now)
    case OpsIncompleteChain => c.chain.Incomplete?
    case OpsUntrustedRoot => c.chain.UntrustedRoot?
    case OpsSanMismatch => !c.hostnameMatches
    case OpsWeakKey => c.keyKind.Rsa? && 0 < c.keyBits < 2048
    case OpsShadowExternal => c.managed.Unmanaged? && c.scope.External?
    case OpsShadowInternal => c.managed.Unmanaged? && !c.scope.External?
  }

  function PackOf(rule: RuleId): Pack {
    match rule
    case CryptoKeyEcdsaWeak => CryptoPack
    case CryptoRsaWeakKey => CryptoPack
    case CryptoSignatureSha1 => CryptoPack
    case PciMissingOwner => PciPack
    case PciNotInVault => PciPack
    case PciUntaggedProd => PciPack
    case Sc081ExpiryCritical => Sc081Pack
    case Sc081ExpiryExpired => Sc081Pack
    case Sc081ExpiryWarning => Sc081Pack
    case Sc081Validity199 => Sc081Pack
    case Sc081Validity47 => Sc081Pack
    case Sc081Validity64 => Sc081Pack
    case Sc081Validity99 => Sc081Pack
    case _ => OpsPack
  }

  /** The severity a rule has in its pack. */
  function PackSeverity(c: Cert, rule: RuleId): Severity {
    match rule
    case Sc081ExpiryExpired => if InProduction(c) || !c.scope.Internal? then Critical else Info
    case Sc081ExpiryCritical => if InProduction(c) || !c.scope.Internal? then Critical else Info
    case Sc081ExpiryWarning => if InProduction(c) || !c.scope.Internal? then Warning else Info
    case PciMissingOwner => Warning
    case PciUntaggedProd => Warning
    case PciNotInVault => Info
    case CryptoKeyEcdsaWeak => Warning
    case OpsExpired => High
    case OpsWeakKey => High
    case OpsExpiringSoon => Medium
    case OpsIncompleteChain => Medium
    case OpsUntrustedRoot => Medium
    case OpsSanMismatch => Low
    case OpsShadowInternal => Low
    case OpsShadowExternal => Info
    case _ => Critical
  }

  /** The severity it is stored with: a warning of the PCI pack weighs less than one of the
      others. */
  function StoredSeverity(c: Cert, rule: RuleId): Severity {
    match PackSeverity(c, rule)
    case Warning => if PackOf(rule).PciPack? then Medium else High
    case s => s
  }

  /** The finding a rule gives when it fires. */
  function FindingOf(c: Cert, rule: RuleId): Finding {
    Finding(rule, PackOf(rule), PackSeverity(c, rule))
  }

  // ----- pack by pack -----

  ghost predicate Explains(fs: seq<Finding>, c: Cert, now: Time, pack: Pack) {
    forall f :: f in fs <==> PackOf(f.rule) == pack && Fires(c, now, f.rule) && f == FindingOf(c, f.rule)
  }

  lemma ValidityMeaning(c: Cert, now: Time, f: Finding)
    ensures ValidityFinding(c) == Some(f) <==>
              Slot(f.rule) == 0 && Fires(c, now, f.rule) && f == FindingOf(c, f.rule)
  {
    StrictestCeiling(c.notBefore);
    assert CEILINGS[0] in CEILINGS && CEILINGS[1] in CEILINGS && CEILINGS[2] in CEILINGS && CEILINGS[3] in CEILINGS;
  }

  lemma ExpiryMeaning(c: Cert, now: Time, f: Finding)
    ensures ExpiryFinding(c, now) == Some(f) <==>
              Slot(f.rule) == 1 && Fires(c, now, f.rule) && f == FindingOf(c, f.rule)
  {
    ExpiryWindows(c, now);
  }

  lemma Sc081Meaning(c: Cert, now: Time)
    ensures Explains(EvaluateSc081(c, now), c, now, Sc081Pack)
  {
    forall f ensures f in EvaluateSc081(c, now) <==>
                       PackOf(f.rule) == Sc081Pack && Fires(c, now, f.rule) && f == FindingOf(c, f.rule)
    {
      ValidityMeaning(c, now, f);
      ExpiryMeaning(c, now, f);
      assert f in EvaluateSc081(c, now) <==> ValidityFinding(c) == Some(f) || ExpiryFinding(c, now) == Some(f);
    }
  }

  lemma InThree(a: Option<Finding>, b: Option<Finding>, c: Option<Finding>, f: Finding)
    ensures f in Opt(a) + Opt(b) + Opt(c) <==> a == Some(f) || b == Some(f) || c == Some(f)
  {
  }

  lemma PciMeaning(c: Cert, now: Time)
    ensures Explains(EvaluatePci(c), c, now, PciPack)
  {
    var owner := When(c.scope.External? && MissingOwner(c.owner), PciMissingOwner, PciPack, Warning);
    var tags := When(IsProd(c.environment) && (MissingOwner(c.owner) || c.tags == []), PciUntaggedProd, PciPack, Warning);
    var vault := When(c.managed.Unmanaged? && c.scope.External? && IsProd(c.environment), PciNotInVault, PciPack, Info);
    forall f ensures f in EvaluatePci(c) <==>
                       PackOf(f.rule) == PciPack && Fires(c, now, f.rule) && f == FindingOf(c, f.rule)
    {
      InThree(owner, tags, vault, f);
      assert EvaluatePci(c) == Opt(owner) + Opt(tags) + Opt(vault);
    }
  }

  lemma CryptoMeaning(c: Cert, now: Time)
    ensures Explains(EvaluateCrypto(c), c, now, CryptoPack)
  {
    var rsa := When(c.keyKind.Rsa? && c.keyBits < 2048, CryptoRsaWeakKey, CryptoPack, Critical);
    var sha1 := When(c.sha1, CryptoSignatureSha1, CryptoPack, Critical);
    var ecdsa := When(c.keyKind.Ecdsa? && c.keyBits < 256, CryptoKeyEcdsaWeak, CryptoPack, Warning);
    forall f ensures f in EvaluateCrypto(c) <==>
                       PackOf(f.rule) == CryptoPack && Fires(c, now, f.rule) && f == FindingOf(c, f.rule)
    {
      InThree(rsa, sha1, ecdsa, f);
      assert EvaluateCrypto(c) == Opt(rsa) + Opt(sha1) + Opt(ecdsa);
    }
  }

  /** A counted expiry finding is there exactly for a counted expiry. */
  lemma CountedMeaning(c: Cert, now: Time)
    ensures HasSc081ExpiryViolation(EvaluateSc081(c, now)) <==> CountedExpiry(c, now)
  {
    var fs := EvaluateSc081(c, now);
    Sc081Meaning(c, now);
    if CountedExpiry(c, now) {
      var rule := if c.notAfter < now then Sc081ExpiryExpired
                  else if c.notAfter < now + 15 * DAY then Sc081ExpiryCritical else Sc081ExpiryWarning;
      assert Fires(c, now, rule) && FindingOf(c, rule) in fs;
      var k :| 0 <= k < |fs| && fs[k] == FindingOf(c, rule);
      assert ExpiryViolation(fs[k]);
    }
    if k :| 0 <= k < |fs| && ExpiryViolation(fs[k]) {
      assert fs[k] in fs && fs[k] == FindingOf(c, fs[k].rule);
    }
  }

  /** The insights of a certificate, by kind. */
  predicate Noticed(c: Cert, i: Insight) {
    match i.kind
    case Expired => c.status.Expired? && i.severity.High?
    case Revoked => c.status.Revoked? && i.severity.Critical?
    case ExpiringSoon => c.status.ExpiringSoon? && i.severity.Medium?
    case IncompleteChain => c.chain.Incomplete? && i.severity.Medium?
    case UntrustedRoot => c.chain.UntrustedRoot? && i.severity.Medium?
    case SanMismatch => !c.hostnameMatches && i.severity.Low?
    case WeakKey => c.keyKind.Rsa? && 0 < c.keyBits < 2048 && i.severity.High?
    case ShadowExternal => c.managed.Unmanaged? && c.scope.External? && i.severity.Info?
    case ShadowInternal => c.managed.Unmanaged? && !c.scope.External? && i.severity.Low?
  }

  lemma InFive(a: seq<Insight>, b: seq<Insight>, c: seq<Insight>, d: seq<Insight>, e: seq<Insight>, i: Insight)
    ensures i in a + (b + (c + (d + e))) <==> i in a || i in b || i in c || i in d || i in e
  {
  }

  lemma ClassifyMeaning(c: Cert, i: Insight)
    ensures i in ClassifyCertificate(c) <==> Noticed(c, i)
  {
    InFive(StatusInsight(c), ChainInsight(c), OptInsight(!c.hostnameMatches, SanMismatch, Low),
           OptInsight(IsWeakKey(c), WeakKey, High), ShadowInsight(c), i);
  }

  lemma {:induction false} ConvertedMeaning(insights: seq<Insight>, skipExpiry: bool, n: nat, f: Finding)
    requires n <= |insights|
    ensures f in OpsFindings(insights, skipExpiry, n) <==>
              exists k :: 0 <= k < n && !Skipped(insights[k].kind, skipExpiry)
                          && f == Finding(OpsRuleId(insights[k].kind), OpsPack, insights[k].severity)
  {
    if n > 0 {
      ConvertedMeaning(insights, skipExpiry, n - 1, f);
    }
  }

  /** The kind of insight behind an operational rule. */
  function KindOf(rule: RuleId): (k: InsightType)
    requires PackOf(rule).OpsPack?
    ensures OpsRuleId(k) == rule && forall other :: OpsRuleId(other) == rule ==> other == k
  {
    match rule
    case OpsExpired => Expired
    case OpsRevoked => Revoked
    case OpsExpiringSoon => ExpiringSoon
    case OpsIncompleteChain => IncompleteChain
    case OpsUntrustedRoot => InsightType.UntrustedRoot
    case OpsSanMismatch => SanMismatch
    case OpsWeakKey => WeakKey
    case OpsShadowExternal => ShadowExternal
    case OpsShadowInternal => ShadowInternal
  }

  lemma NoticedFires(c: Cert, now: Time, i: Insight)
    requires Noticed(c, i) && !Skipped(i.kind, CountedExpiry(c, now))
    ensures var rule := OpsRuleId(i.kind);
            PackOf(rule) == OpsPack && Fires(c, now, rule) && Finding(rule, OpsPack, i.severity) == FindingOf(c, rule)
  {
  }

  lemma OpsFindingFires(c: Cert, now: Time, f: Finding)
    requires f in EvaluateOps(c, EvaluateSc081(c, now))
    ensures PackOf(f.rule) == OpsPack && Fires(c, now, f.rule) && f == FindingOf(c, f.rule)
  {
    var insights := ClassifyCertificate(c);
    var skip := HasSc081ExpiryViolation(EvaluateSc081(c, now));
    CountedMeaning(c, now);
    ConvertedMeaning(insights, skip, |insights|, f);
    var k :| 0 <= k < |insights| && !Skipped(insights[k].kind, skip)
             && f == Finding(OpsRuleId(insights[k].kind), OpsPack, insights[k].severity);
    var i := insights[k];
    assert i in insights;
    ClassifyMeaning(c, i);
    NoticedFires(c, now, i);
  }

  lemma FiringOpsIsFound(c: Cert, now: Time, rule: RuleId)
    requires PackOf(rule) == OpsPack && Fires(c, now, rule)
    ensures FindingOf(c, rule) in EvaluateOps(c, EvaluateSc081(c, now))
  {
    var insights := ClassifyCertificate(c);
    var skip := HasSc081ExpiryViolation(EvaluateSc081(c, now));
    var i := Insight(KindOf(rule), PackSeverity(c, rule));
    CountedMeaning(c, now);
    ClassifyMeaning(c, i);
    var k :| 0 <= k < |insights| && insights[k] == i;
    assert !Skipped(insights[k].kind, skip);
    ConvertedMeaning(insights, skip, |insights|, FindingOf(c, rule));
  }

  lemma OpsMeaning(c: Cert, now: Time)
    ensures Explains(EvaluateOps(c, EvaluateSc081(c, now)), c, now, OpsPack)
  {
    forall f ensures f in EvaluateOps(c, EvaluateSc081(c, now)) <==>
                       PackOf(f.rule) == OpsPack && Fires(c, now, f.rule) && f == FindingOf(c, f.rule)
    {
      if f in EvaluateOps(c, EvaluateSc081(c, now)) {
        OpsFindingFires(c, now, f);
      } else if PackOf(f.rule) == OpsPack && Fires(c, now, f.rule) {
        FiringOpsIsFound(c, now, f.rule);
      }
    }
  }

  lemma InFour(a: seq<Finding>, b: seq<Finding>, c: seq<Finding>, d: seq<Finding>, f: Finding)
    ensures f in a + (b + (c + d)) <==> f in a || f in b || f in c || f in d
  {
  }

  /** The evaluation of a certificate holds exactly the findings of the rules that fire. */
  lemma EvaluatedIff(c: Cert, now: Time, f: Finding)
    ensures f in EvaluateCertAll(c, now) <==> Fires(c, now, f.rule) && f == FindingOf(c, f.rule)
  {
    Sc081Meaning(c, now);
    PciMeaning(c, now);
    CryptoMeaning(c, now);
    OpsMeaning(c, now);
    InFour(EvaluateSc081(c, now), EvaluatePci(c), EvaluateCrypto(c), EvaluateOps(c, EvaluateSc081(c, now)), f);
  }

  // ----- the table after a recompute -----

  lemma EvaluatedIffFires(c: Cert, now: Time, rule: RuleId)
    ensures Evaluated(c, now, rule) <==> Fires(c, now, rule)
  {
    var fs := EvaluateCertAll(c, now);
    if Fires(c, now, rule) {
      EvaluatedIff(c, now, FindingOf(c, rule));
      var k :| 0 <= k < |fs| && fs[k] == FindingOf(c, rule);
      assert fs[k].rule == rule;
    }
    if k :| 0 <= k < |fs| && fs[k].rule == rule {
      assert fs[k] in fs;
      EvaluatedIff(c, now, fs[k]);
    }
  }

  lemma MappedSeverity(c: Cert, rule: RuleId)
    ensures MapPackSeverity(PackOf(rule), PackSeverity(c, rule)) == StoredSeverity(c, rule)
  {
  }

  /** After a recompute a rule is open for a certificate if and only if it fires on the
      certificate's columns, and is stored with its pack, its severity, the policy version and
      whether an active waiver covers it. */
  lemma OpenIffFires(t: map<Key, Row>, id: CertId, c: Cert, policy: Option<nat>, waivers: seq<Waiver>, now: Time, rule: RuleId)
    ensures var after := Recomputed(t, id, c, policy, waivers, now);
            && (IsOpen(after, id, rule) <==> Fires(c, now, rule))
            && (Fires(c, now, rule) ==>
                  Key(id, rule) in after
                  && after[Key(id, rule)] == Row(PackOf(rule), StoredSeverity(c, rule), policy,
                                                 ActiveWaiver(waivers, id, rule, now), true))
  {
    OpenIffEvaluated(t, id, c, policy, waivers, now, rule);
    EvaluatedIffFires(c, now, rule);
    if Fires(c, now, rule) {
      EvaluatedIff(c, now, FindingOf(c, rule));
      OpenRowContents(t, id, c, policy, waivers, now, FindingOf(c, rule));
      MappedSeverity(c, rule);
    }
  }

  // ----- the score -----

  /** Some rule of the given severity fires that no active waiver covers. */
  ghost predicate Blamed(id: CertId, c: Cert, waivers: seq<Waiver>, now: Time, s: Severity) {
    exists rule :: Fires(c, now, rule) && StoredSeverity(c, rule) == s && !ActiveWaiver(waivers, id, rule, now)
  }

  ghost function WorstBlame(id: CertId, c: Cert, waivers: seq<Waiver>, now: Time): nat {
    if Blamed(id, c, waivers, now, Critical) then 90
    else if Blamed(id, c, waivers, now, High) then 70
    else if Blamed(id, c, waivers, now, Medium) then 40
    else if Blamed(id, c, waivers, now, Low) then 20
    else if Blamed(id, c, waivers, now, Info) then 5
    else 0
  }

  lemma BlameScores(c: Cert, now: Time, rule: RuleId)
    ensures ScoreOf(FindingOf(c, rule))
         == match StoredSeverity(c, rule)
            case Critical => 90 case High => 70 case Medium => 40 case Low => 20 case Info => 5 case Warning => 0
    ensures !StoredSeverity(c, rule).Warning?
  {
  }

  /** The score of a certificate is set by its worst finding without a waiver: whatever its other
      findings, a critical one gives 90, else a high one 70, a medium one 40, a low one 20, one
      for information 5, and without any it is 0. */
  lemma ScoreIsWorstBlame(t: map<Key, Row>, id: CertId, c: Cert, policy: Option<nat>, waivers: seq<Waiver>, now: Time)
    ensures RiskOf(Recomputed(t, id, c, policy, waivers, now), id).score == WorstBlame(id, c, waivers, now)
  {
    ScoreIsMaxUnwaived(t, id, c, policy, waivers, now);
    var score := RiskOf(Recomputed(t, id, c, policy, waivers, now), id).score;
    forall rule | Fires(c, now, rule) && !ActiveWaiver(waivers, id, rule, now)
      ensures ScoreOf(FindingOf(c, rule)) <= score
    {
      EvaluatedIff(c, now, FindingOf(c, rule));
    }
    if score > 0 {
      var f :| f in EvaluateCertAll(c, now) && !ActiveWaiver(waivers, id, f.rule, now) && ScoreOf(f) == score;
      EvaluatedIff(c, now, f);
    }
    WorstOf(id, c, waivers, now, score);
  }

  lemma WorstOf(id: CertId, c: Cert, waivers: seq<Waiver>, now: Time, score: nat)
    requires forall rule :: Fires(c, now, rule) && !ActiveWaiver(waivers, id, rule, now) ==> ScoreOf(FindingOf(c, rule)) <= score
    requires score == 0 || exists rule :: Fires(c, now, rule) && !ActiveWaiver(waivers, id, rule, now)
                                          && ScoreOf(FindingOf(c, rule)) == score
    ensures score == WorstBlame(id, c, waivers, now)
  {
    forall rule ensures ScoreOf(FindingOf(c, rule)) == (match StoredSeverity(c, rule)
                          case Critical => 90 case High => 70 case Medium => 40 case Low => 20 case Info => 5 case Warning => 0)
                        && !StoredSeverity(c, rule).Warning?
    {
      BlameScores(c, now, rule);
    }
  }

  /** A waiver covers its rule of its certificate until it expires or is revoked. */
  lemma WaivedIff(waivers: seq<Waiver>, w: Waiver, cert: CertId, rule: RuleId, now: Time)
    ensures ActiveWaiver(waivers + [w], cert, rule, now) <==>
              ActiveWaiver(waivers, cert, rule, now) || (w.cert == cert && w.rule == rule && !w.revoked && now < w.expires)
    ensures !ActiveWaiver([], cert, rule, now)
  {
    var more := waivers + [w];
    if k :| 0 <= k < |more| && more[k].cert == cert && more[k].rule == rule && !more[k].revoked && more[k].expires > now {
      assert k < |waivers| ==> waivers[k] == more[k];
    }
    if k :| 0 <= k < |waivers| && waivers[k].cert == cert && waivers[k].rule == rule && !waivers[k].revoked && waivers[k].expires > now {
      assert more[k] == waivers[k];
    }
    assert more[|waivers|] == w;
  }

  /** The reasons given with the score: one for each rule that fires, with its score and whether
      it is waived, waived ones included. */
  lemma ReasonsMeaning(t: map<Key, Row>, id: CertId, c: Cert, policy: Option<nat>, waivers: seq<Waiver>, now: Time, x: Reason)
    ensures x in RiskOf(Recomputed(t, id, c, policy, waivers, now), id).reasons <==>
              && Fires(c, now, x.rule) && x.pack == PackOf(x.rule) && x.severity == StoredSeverity(c, x.rule)
              && x.waived == ActiveWaiver(waivers, id, x.rule, now) && x.score == ScoreOf(FindingOf(c, x.rule))
  {
    var after := Recomputed(t, id, c, policy, waivers, now);
    OpenIffFires(t, id, c, policy, waivers, now, x.rule);
    MappedSeverity(c, x.rule);
    ReasonListed(after, id, x);
  }

  lemma ReasonListed(t: map<Key, Row>, id: CertId, x: Reason)
    ensures x in RiskOf(t, id).reasons <==>
              && IsOpen(t, id, x.rule)
              && var r := t[Key(id, x.rule)];
                 x == Reason(x.rule, r.pack, r.severity, ScoreSeverity(r.severity), r.waived)
  {
    var rows := OpenRows(t, id, RULES);
    var reasons := ReasonsOf(rows);
    RulesAreListed(x.rule);
    if x in reasons {
      var k :| 0 <= k < |reasons| && reasons[k] == x;
      assert rows[k] in rows;
      OpenRowsMeaning(t, id, RULES, rows[k]);
    }
    if IsOpen(t, id, x.rule) {
      var row := OpenRow(x.rule, t[Key(id, x.rule)]);
      OpenRowsMeaning(t, id, RULES, row);
      var k :| 0 <= k < |rows| && rows[k] == row;
      assert reasons[k] == Reason(x.rule, row.row.pack, row.row.severity, ScoreSeverity(row.row.severity), row.row.waived);
      assert reasons[k] in reasons;
    }
  }
}
