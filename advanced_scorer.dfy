/** The ML-flavoured scorer (`AdvancedScorer`): the baseline report, run
    under the version "2.0.0-advanced", shifted by a fixed-rule adjustment
    and extended with the adjustment's flags and the `ml_analysis` bundle.
    The "ML" is a handful of fixed detections; nothing is learned. */
module AdvancedScorer {
  import opened Text
  import opened Records
  import DefaultScorer

  const VERSION := "2.0.0-advanced"
  const SCORER_ID := "pgdn.scoring.advanced_scorer.AdvancedScorer"

  /** More listed ports than this is suspicious by itself. */
  const MANY_PORTS := 10
  /** Port sets that are suspicious when all of their ports are open:
      web enumeration, service enumeration, database enumeration. */
  const ATTACK_PATTERNS: seq<seq<int>> := [[80, 443, 8080, 8443], [21, 22, 23, 25], [3306, 5432, 27017]]

  const PATTERN_PENALTY := 15
  const GEO_PENALTY := 10
  const ANOMALY_PENALTY := 20
  const BEST_PRACTICES_BONUS := 5
  /** The geographic risk, in hundredths, above which it is flagged. */
  const GEO_THRESHOLD := 70
  /** Port-count limit of the best-practices detection. */
  const MINIMAL_PORTS := 3

  const ML_CONFIDENCE_PERCENT := 85
  const ANALYSIS_METHODS := ["port_pattern", "geo_risk", "behavioral", "best_practices"]

  const PATTERN_FLAG := "ML: Suspicious port pattern detected"
  const GEO_FLAG := "ML: High geographic risk detected"
  const ANOMALY_FLAG := "ML: Behavioral anomaly detected"
  const BEST_PRACTICES_FLAG := "ML: Security best practices detected"

  const ANOMALY_DB_PORTS := [3306, 5432, 27017]
  const WEB_PORTS := [80, 443]

  // ------------------------------------------------------ the detections

  /** Every port of `pattern` is open. */
  predicate HasAll(ports: seq<int>, pattern: seq<int>) {
    forall q :: q in pattern ==> q in ports
  }

  predicate HasAny(ports: seq<int>, candidates: seq<int>) {
    exists q :: q in candidates && q in ports
  }

  /** `_is_suspicious_port_pattern`. */
  predicate SuspiciousPortPattern(ports: seq<int>) {
    |ports| > MANY_PORTS
    || exists k :: 0 <= k < |ATTACK_PATTERNS| && HasAll(ports, ATTACK_PATTERNS[k])
  }

  /** The patterns are tried in order and the first complete one answers. */
  method IsSuspiciousPortPattern(ports: seq<int>) returns (suspicious: bool)
    ensures suspicious == SuspiciousPortPattern(ports)
  {
    if |ports| > MANY_PORTS {
      return true;
    }
    var k := 0;
    while k < |ATTACK_PATTERNS|
      invariant 0 <= k <= |ATTACK_PATTERNS|
      invariant forall j :: 0 <= j < k ==> !HasAll(ports, ATTACK_PATTERNS[j])
    {
      var pattern := ATTACK_PATTERNS[k];
      if HasAll(ports, pattern) {
        return true;
      }
      k := k + 1;
    }
    return false;
  }

  predicate PrivateIp(ip: string) {
    StartsWith(ip, "192.168.") || StartsWith(ip, "10.") || StartsWith(ip, "172.")
  }

  predicate LoopbackIp(ip: string) {
    StartsWith(ip, "127.")
  }

  /** `_assess_geographic_risk`, in hundredths. `md5Prefix(ip)` stands for
      the integer value of the first eight hex digits of the MD5 digest of
      `ip`. */
  function GeoRiskPercent(ip: string, md5Prefix: string -> nat): (r: nat)
    ensures r < 100
  {
    if PrivateIp(ip) then 10
    else if LoopbackIp(ip) then 0
    else md5Prefix(ip) % 100
  }

  /** `_detect_behavioral_anomaly`: SSH, a database, a web server and the
      unencrypted Docker socket all at once. */
  predicate BehavioralAnomaly(ports: seq<int>) {
    DefaultScorer.SSH_PORT in ports && HasAny(ports, ANOMALY_DB_PORTS)
    && HasAny(ports, WEB_PORTS) && DefaultScorer.DOCKER_PORT in ports
  }

  /** The `good_tls` test: a TLS mapping whose issuer is a non-empty string
      that does not contain "Self-signed". */
  predicate GoodTls(tls: Option<Tls>) {
    tls.Some? && tls.value.issuer.Some?
    && tls.value.issuer.value != "" && !Contains(tls.value.issuer.value, "Self-signed")
  }

  /** `_detect_security_best_practices`: HTTPS without HTTP, good TLS and at
      most three listed ports. */
  predicate BestPractices(scan: ScanRecord) {
    443 in scan.openPorts && 80 !in scan.openPorts && GoodTls(scan.tls)
    && |scan.openPorts| <= MINIMAL_PORTS
  }

  /** `_calculate_ml_risk_level`, on the adjustment in whole points. */
  function MlRiskLevel(adjustment: int): RiskLevel {
    if adjustment >= 0 then LowRisk
    else if adjustment >= -10 then ModerateRisk
    else if adjustment >= -20 then HighRisk
    else CriticalRisk
  }

  // ---------------------------------------------------- the ML analysis

  /** The adjustment bundle, detection by detection: each detection that
      fires adds its term to the adjustment and its flag to the list, in the
      fixed order pattern, geography, behaviour, best practices. The `ip` of
      a record without one is the empty string here. */
  function MlAnalysisOf(scan: ScanRecord, md5Prefix: string -> nat): MlAnalysis {
    var p := scan.openPorts;
    var pattern := SuspiciousPortPattern(p);
    var geo := GeoRiskPercent(scan.ip.GetOr(""), md5Prefix) > GEO_THRESHOLD;
    var anomaly := BehavioralAnomaly(p);
    var good := BestPractices(scan);
    var adjustment := (if pattern then -PATTERN_PENALTY else 0) + (if geo then -GEO_PENALTY else 0)
                      + (if anomaly then -ANOMALY_PENALTY else 0) + (if good then BEST_PRACTICES_BONUS else 0);
    var flags := (if pattern then [PATTERN_FLAG] else []) + (if geo then [GEO_FLAG] else [])
                 + (if anomaly then [ANOMALY_FLAG] else []) + (if good then [BEST_PRACTICES_FLAG] else []);
    MlAnalysis(adjustment, flags, MlRiskLevel(adjustment), ML_CONFIDENCE_PERCENT, ANALYSIS_METHODS)
  }

  /** `_apply_ml_analysis`: start from no adjustment and no flags and apply
      the four detections in order. */
  method ApplyMlAnalysis(scan: ScanRecord, md5Prefix: string -> nat) returns (m: MlAnalysis)
    ensures m == MlAnalysisOf(scan, md5Prefix)
  {
    var openPorts := scan.openPorts;
    var ip := scan.ip.GetOr("");
    var mlFlags: seq<string> := [];
    var scoreAdjustment := 0;

    var suspicious := IsSuspiciousPortPattern(openPorts);
    if suspicious {
      scoreAdjustment := scoreAdjustment - PATTERN_PENALTY;
      mlFlags := mlFlags + [PATTERN_FLAG];
    }
    var geoRisk := GeoRiskPercent(ip, md5Prefix);
    if geoRisk > GEO_THRESHOLD {
      scoreAdjustment := scoreAdjustment - GEO_PENALTY;
      mlFlags := mlFlags + [GEO_FLAG];
    }
    if BehavioralAnomaly(openPorts) {
      scoreAdjustment := scoreAdjustment - ANOMALY_PENALTY;
      mlFlags := mlFlags + [ANOMALY_FLAG];
    }
    if BestPractices(scan) {
      scoreAdjustment := scoreAdjustment + BEST_PRACTICES_BONUS;
      mlFlags := mlFlags + [BEST_PRACTICES_FLAG];
    }
    m := MlAnalysis(scoreAdjustment, mlFlags, MlRiskLevel(scoreAdjustment),
                    ML_CONFIDENCE_PERCENT, ANALYSIS_METHODS);
  }

  // ------------------------------------------------------------ the merge

  /** The advanced report built from a base report and an adjustment
      bundle: the adjusted score clamped to 0..100, the ML flags after the
      base flags, a new summary and scorer id, and the bundle attached.
      Every other field is the base report's. */
  function Merge(base: Report, m: MlAnalysis): Report {
    var score := DefaultScorer.Clamp(base.score + m.scoreAdjustment * DefaultScorer.TENTHS,
                                      0, DefaultScorer.FULL_SCORE);
    base.(score := score, flags := base.flags + m.mlFlags,
          summary := MlSummary(score, VERSION, m.mlRiskLevel),
          scorerId := SCORER_ID, ml := Some(m))
  }

  /** The report `score` returns. */
  function AdvancedReport(scan: ScanRecord, contentHash: ScanRecord -> string, timestamp: string,
                          md5Prefix: string -> nat): Report
  {
    Merge(DefaultScorer.BaseReport(VERSION, scan, contentHash, timestamp), MlAnalysisOf(scan, md5Prefix))
  }

  /** `AdvancedScorer.score`: the base score under this scorer's version,
      then the adjustment, the clamp and the merge. */
  method Score(scan: ScanRecord, contentHash: ScanRecord -> string, timestamp: string,
               md5Prefix: string -> nat) returns (r: Report)
    ensures r == AdvancedReport(scan, contentHash, timestamp, md5Prefix)
    ensures 0 <= r.score <= DefaultScorer.FULL_SCORE
  {
    var baseResult := DefaultScorer.Score(VERSION, scan, contentHash, timestamp);
    var mlAdjustments := ApplyMlAnalysis(scan, md5Prefix);
    var adjustedScore := baseResult.score + mlAdjustments.scoreAdjustment * DefaultScorer.TENTHS;
    adjustedScore := DefaultScorer.Clamp(adjustedScore, 0, DefaultScorer.FULL_SCORE);
    var enhancedFlags := baseResult.flags + mlAdjustments.mlFlags;
    r := baseResult.(score := adjustedScore, flags := enhancedFlags,
                     summary := MlSummary(adjustedScore, VERSION, mlAdjustments.mlRiskLevel),
                     scorerId := SCORER_ID, ml := Some(mlAdjustments));
  }
}
