/** What the advanced scorer promises, proved about `AdvancedReport` and
    `MlAnalysisOf`, the values `AdvancedScorer.Score` and
    `AdvancedScorer.ApplyMlAnalysis` compute. */
module AdvancedScorerProperties {
  import opened Text
  import opened Records
  import DefaultScorer
  import DefaultScorerProperties
  import opened AdvancedScorer

  // ------------------------------------------------------ the detections

  /** `|set(s)| <= |s|`. */
  lemma {:induction false} SetOfSeqSize(s: seq<int>)
    ensures |set x | x in s| <= |s|
  {
    if s != [] {
      SetOfSeqSize(s[1..]);
      assert (set x | x in s) == (set x | x in s[1..]) + {s[0]};
    }
  }

  /** A behavioural anomaly needs four distinct open ports, best practices
      allow at most three: the two detections never fire together. */
  lemma AnomalyExcludesBestPractices(scan: ScanRecord)
    ensures !(BehavioralAnomaly(scan.openPorts) && BestPractices(scan))
  {
    var p := scan.openPorts;
    if BehavioralAnomaly(p) {
      var db :| db in ANOMALY_DB_PORTS && db in p;
      var web :| web in WEB_PORTS && web in p;
      var seen := set x | x in p;
      assert {DefaultScorer.SSH_PORT, db, web, DefaultScorer.DOCKER_PORT} <= seen;
      assert |{DefaultScorer.SSH_PORT, db, web, DefaultScorer.DOCKER_PORT}| == 4;
      SubsetSize({DefaultScorer.SSH_PORT, db, web, DefaultScorer.DOCKER_PORT}, seen);
      SetOfSeqSize(p);
    }
  }

  lemma SubsetSize(a: set<int>, b: set<int>)
    requires a <= b
    ensures |a| <= |b|
  {
    assert b == a + (b - a);
  }

  /** Opening more ports never clears the port-pattern or the anomaly
      detection: both only look for ports that are present. */
  lemma PortDetectionsMonotone(ports: seq<int>, extra: seq<int>)
    ensures SuspiciousPortPattern(ports) ==> SuspiciousPortPattern(ports + extra)
    ensures BehavioralAnomaly(ports) ==> BehavioralAnomaly(ports + extra)
  {
    var more := ports + extra;
    assert forall q :: q in ports ==> q in more;
    if SuspiciousPortPattern(ports) && |ports| <= MANY_PORTS {
      var k :| 0 <= k < |ATTACK_PATTERNS| && HasAll(ports, ATTACK_PATTERNS[k]);
      assert HasAll(more, ATTACK_PATTERNS[k]);
    }
  }

  /** For good TLS, the baseline TLS check fails only on a missing or empty
      expiry. The converse does not hold (`SelfSignedVariant`). */
  lemma GoodTlsBaseline(tls: Option<Tls>)
    ensures GoodTls(tls) ==>
              (DefaultScorer.TlsFails(tls) <==> tls.value.expiry == None || tls.value.expiry == Some(""))
  {
    if GoodTls(tls) {
      var issuer := tls.value.issuer.value;
      ContainsPrefix(issuer, "");
      assert issuer + "" == issuer;
      assert issuer != "Self-signed";
    }
  }

  /** Private and loopback addresses are never flagged for geographic risk,
      whatever their digest. */
  lemma LocalIpNoGeoFlag(scan: ScanRecord, md5Prefix: string -> nat)
    requires PrivateIp(scan.ip.GetOr("")) || LoopbackIp(scan.ip.GetOr(""))
    ensures GEO_FLAG !in MlAnalysisOf(scan, md5Prefix).mlFlags
  {
  }

  /** A public address is flagged exactly when its digest puts it above 70
      in the hundred. */
  lemma PublicIpGeoFlag(scan: ScanRecord, md5Prefix: string -> nat)
    requires !PrivateIp(scan.ip.GetOr("")) && !LoopbackIp(scan.ip.GetOr(""))
    ensures GEO_FLAG in MlAnalysisOf(scan, md5Prefix).mlFlags
        <==> md5Prefix(scan.ip.GetOr("")) % 100 > GEO_THRESHOLD
  {
  }

  // ---------------------------------------------------- the ML analysis

  /** The adjustment lies between -45 and +5 points and is a multiple of 5;
      -40 (every detection at once) cannot occur. */
  lemma MlAdjustmentRange(scan: ScanRecord, md5Prefix: string -> nat)
    ensures var a := MlAnalysisOf(scan, md5Prefix).scoreAdjustment;
            -45 <= a <= 5 && a % 5 == 0 && a != -40
  {
    AnomalyExcludesBestPractices(scan);
  }

  /** One flag per detection that fired, no other: the number of flags is
      the number of detections that fired, and each flag names its own. */
  lemma MlFlagsMatchDetections(scan: ScanRecord, md5Prefix: string -> nat)
    ensures var m := MlAnalysisOf(scan, md5Prefix);
            && (PATTERN_FLAG in m.mlFlags <==> SuspiciousPortPattern(scan.openPorts))
            && (GEO_FLAG in m.mlFlags <==> GeoRiskPercent(scan.ip.GetOr(""), md5Prefix) > GEO_THRESHOLD)
            && (ANOMALY_FLAG in m.mlFlags <==> BehavioralAnomaly(scan.openPorts))
            && (BEST_PRACTICES_FLAG in m.mlFlags <==> BestPractices(scan))
            && |m.mlFlags| <= 3
  {
    AnomalyExcludesBestPractices(scan);
  }

  /** The ML risk is LOW exactly when none of the three penalising
      detections fired, and CRITICAL only when at least two did. */
  lemma MlRiskReflectsDetections(scan: ScanRecord, md5Prefix: string -> nat)
    ensures var m := MlAnalysisOf(scan, md5Prefix);
            var fired := (if SuspiciousPortPattern(scan.openPorts) then 1 else 0)
                         + (if GeoRiskPercent(scan.ip.GetOr(""), md5Prefix) > GEO_THRESHOLD then 1 else 0)
                         + (if BehavioralAnomaly(scan.openPorts) then 1 else 0);
            && (m.mlRiskLevel == LowRisk <==> fired == 0)
            && (m.mlRiskLevel == CriticalRisk ==> fired >= 2)
            && m.mlRiskLevel != MinimalRisk
  {
  }

  /** A larger adjustment never gives a higher ML risk, and the ML risk is
      never MINIMAL. */
  lemma MlRiskMonotone(a: int, b: int)
    requires a <= b
    ensures DefaultScorerProperties.RiskRank(MlRiskLevel(b)) <= DefaultScorerProperties.RiskRank(MlRiskLevel(a))
    ensures MlRiskLevel(a) != MinimalRisk
  {
  }

  // ------------------------------------------------------------ the merge

  /** The merge keeps every field of the base report except the score, the
      flags, the summary and the scorer id; the base flags come first,
      followed by the ML flags; the score is the adjusted base score, within
      0..100. */
  lemma MergeKeepsBase(base: Report, m: MlAnalysis)
    ensures var r := Merge(base, m);
            && r.ip == base.ip && r.timestamp == base.timestamp
            && r.contentHash == base.contentHash && r.dockerExposure == base.dockerExposure
            && r.metrics == base.metrics && r.riskLevel == base.riskLevel
            && r.enhancedAnalysis == base.enhancedAnalysis
            && r.flags[..|base.flags|] == base.flags && r.flags[|base.flags|..] == m.mlFlags
            && r.scorerId == SCORER_ID && r.ml == Some(m)
            && 0 <= r.score <= DefaultScorer.FULL_SCORE
            && ((0 <= base.score + 10 * m.scoreAdjustment <= DefaultScorer.FULL_SCORE)
                ==> r.score == base.score + 10 * m.scoreAdjustment)
  {
  }

  /** The advanced score moves the base score by at most 45 points down and
      5 points up, and never leaves 0..100. */
  lemma AdvancedScoreNearBase(scan: ScanRecord, contentHash: ScanRecord -> string, timestamp: string,
                              md5Prefix: string -> nat)
    ensures var base := DefaultScorer.BaseReport(VERSION, scan, contentHash, timestamp);
            var r := AdvancedReport(scan, contentHash, timestamp, md5Prefix);
            && base.score - 450 <= r.score <= base.score + 50
            && 0 <= r.score <= DefaultScorer.FULL_SCORE
  {
    MlAdjustmentRange(scan, md5Prefix);
  }

  lemma MlFlagsStartMarked(scan: ScanRecord, md5Prefix: string -> nat)
    ensures forall f :: f in MlAnalysisOf(scan, md5Prefix).mlFlags ==> StartsWith(f, "ML: ")
  {
    assert StartsWith(PATTERN_FLAG, "ML: ") && StartsWith(GEO_FLAG, "ML: ");
    assert StartsWith(ANOMALY_FLAG, "ML: ") && StartsWith(BEST_PRACTICES_FLAG, "ML: ");
  }

  lemma SplitByMarker(base: seq<string>, extra: seq<string>)
    requires forall f :: f in base ==> |f| > 0 && f[0] in "ACESTVW"
    requires forall f :: f in extra ==> StartsWith(f, "ML: ")
    ensures forall f :: f in base + extra ==> (StartsWith(f, "ML: ") <==> f in extra)
  {
    forall f | f in base + extra ensures StartsWith(f, "ML: ") <==> f in extra {
      if f in base {
        assert f[0] != 'M';
      }
    }
  }

  /** The ML flags can be told apart from the base flags: they are exactly
      the flags of the advanced report that start with "ML: ". */
  lemma MlFlagsAreMarked(scan: ScanRecord, contentHash: ScanRecord -> string, timestamp: string,
                         md5Prefix: string -> nat)
    ensures var r := AdvancedReport(scan, contentHash, timestamp, md5Prefix);
            var m := MlAnalysisOf(scan, md5Prefix);
            forall f :: f in r.flags ==> (StartsWith(f, "ML: ") <==> f in m.mlFlags)
  {
    DefaultScorerProperties.RuleFlagsHead(scan);
    MlFlagsStartMarked(scan, md5Prefix);
    SplitByMarker(DefaultScorer.RuleFlags(scan), MlAnalysisOf(scan, md5Prefix).mlFlags);
  }

  // ----------------------------------------------------------- scenarios

  /** The TLS check and the best-practices check read "Self-signed"
      differently: the first compares the issuer with it, the second looks
      for it inside the issuer. An issuer "Self-signed CA" passes the TLS
      check and still is not good TLS. */
  lemma SelfSignedVariant()
    ensures var tls := Some(Tls(Some("Self-signed CA"), Some("2030-01-01")));
            !DefaultScorer.TlsFails(tls) && !GoodTls(tls)
  {
    var issuer := "Self-signed CA";
    assert issuer[0..11] == "Self-signed";
    ContainsAt(issuer, "Self-signed", 0);
  }

  /** SSH, MySQL, HTTP and the Docker socket without good TLS: the base
      score is already 0, the anomaly is flagged and the ML risk is at least
      HIGH. */
  lemma CompromisedLookingHost(scan: ScanRecord, contentHash: ScanRecord -> string, timestamp: string,
                               md5Prefix: string -> nat)
    requires 22 in scan.openPorts && 3306 in scan.openPorts
    requires 80 in scan.openPorts && 2375 in scan.openPorts
    requires DefaultScorer.TlsFails(scan.tls)
    ensures var r := AdvancedReport(scan, contentHash, timestamp, md5Prefix);
            && r.score == 0 && ANOMALY_FLAG in r.flags
            && r.ml.Some? && r.ml.value.mlRiskLevel in {HighRisk, CriticalRisk}
  {
    DefaultScorer.FilterMembers(scan.openPorts, DefaultScorer.DATABASE_PORTS);
    assert 3306 in DefaultScorer.DatabasePorts(scan.openPorts);
    DefaultScorerProperties.ExposedHost(VERSION, scan, contentHash, timestamp);
    assert ANOMALY_DB_PORTS[0] == 3306 && WEB_PORTS[0] == 80;
    assert BehavioralAnomaly(scan.openPorts);
    AnomalyExcludesBestPractices(scan);
  }

  /** The adjustment bundle of a private host that serves only HTTPS with
      a good certificate: the best-practices bonus alone. */
  lemma PrivateHttpsAnalysis(scan: ScanRecord, md5Prefix: string -> nat)
    requires PrivateIp(scan.ip.GetOr("")) && scan.openPorts == [443] && GoodTls(scan.tls)
    ensures MlAnalysisOf(scan, md5Prefix)
         == MlAnalysis(BEST_PRACTICES_BONUS, [BEST_PRACTICES_FLAG], LowRisk, ML_CONFIDENCE_PERCENT, ANALYSIS_METHODS)
  {
    assert !SuspiciousPortPattern([443]) by {
      assert !HasAll([443], ATTACK_PATTERNS[0]) by { assert 80 in ATTACK_PATTERNS[0]; }
      assert !HasAll([443], ATTACK_PATTERNS[1]) by { assert 21 in ATTACK_PATTERNS[1]; }
      assert !HasAll([443], ATTACK_PATTERNS[2]) by { assert 3306 in ATTACK_PATTERNS[2]; }
    }
    assert !BehavioralAnomaly([443]);
    assert [] + [] + [] + [BEST_PRACTICES_FLAG] == [BEST_PRACTICES_FLAG];
  }

  /** A private host serving only HTTPS with a valid DigiCert certificate
      earns the best-practices bonus, which cannot lift the full score above
      100: its only flag is the bonus one and its ML risk is LOW. */
  lemma PrivateHttpsHost(scan: ScanRecord, issuer: string, expiry: string,
                         contentHash: ScanRecord -> string, timestamp: string, md5Prefix: string -> nat)
    requires PrivateIp(scan.ip.GetOr("")) && scan.openPorts == [443] && scan.vulns == []
    requires scan.tls == Some(Tls(Some(issuer), Some(expiry))) && expiry != ""
    requires Contains(issuer, "DigiCert") && '\'' !in issuer && !Contains(issuer, "Self-signed")
    ensures var r := AdvancedReport(scan, contentHash, timestamp, md5Prefix);
            && r.score == DefaultScorer.FULL_SCORE
            && r.flags == [BEST_PRACTICES_FLAG]
            && r.ml.Some? && r.ml.value.mlRiskLevel == LowRisk
  {
    DefaultScorerProperties.PremiumHttpsHost(VERSION, scan, issuer, expiry, contentHash, timestamp);
    assert issuer != "" by {
      MissingChar("", "DigiCert", 0);
    }
    PrivateHttpsAnalysis(scan, md5Prefix);
    assert [] + [BEST_PRACTICES_FLAG] == [BEST_PRACTICES_FLAG];
  }
}
