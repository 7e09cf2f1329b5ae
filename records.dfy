/** The scan record the scorers read and the report they return.
    A key that is missing from the scan dict is `None` here. */
module Records {

  datatype Option<+T> = None | Some(value: T) {
    function GetOr(default: T): T {
      match this
      case Some(v) => v
      case None => default
    }
  }

  /** The `tls` mapping of a scan: a missing key is `None`. An empty mapping
      (falsy in Python) is `Tls(None, None)`. */
  datatype Tls = Tls(issuer: Option<string>, expiry: Option<string>)

  /** The `docker_exposure` mapping, passed through to the report unchanged. */
  datatype DockerExposure = DockerExposure(exposed: bool)

  /** One scan of one host. `vulns` lists the (id, description) pairs of the
      `vulns` mapping in its insertion order; a missing `open_ports` or `vulns`
      is the empty sequence. */
  datatype ScanRecord = ScanRecord(
    ip: Option<string>,
    openPorts: seq<int>,
    tls: Option<Tls>,
    vulns: seq<(string, string)>,
    dockerExposure: Option<DockerExposure>)

  /** Severity labels of `risk_factors` and of vulnerabilities. */
  datatype Severity = Critical | High | Medium | Low

  /** Letter grades of `security_grade` and `tls_grade`. */
  datatype Grade = APlus | A | B | C | D | F

  /** `pgdn_risk_level` of the base report and `ml_risk_level` of the
      adjustment bundle. */
  datatype RiskLevel = MinimalRisk | LowRisk | ModerateRisk | HighRisk | CriticalRisk

  /** What a report's one-line summary is built from (its wording is not modelled). */
  datatype Summary =
    | BaseSummary(score: int, version: string, grade: Grade, risk: RiskLevel)
    | MlSummary(score: int, version: string, mlRisk: RiskLevel)

  /** `pgdn_metrics`; `tlsGrade` is `None` when the key `tls_grade` was never set. */
  datatype Metrics = Metrics(
    scorerVersion: string,
    riskFactors: map<string, Severity>,
    securityGrade: Grade,
    complianceScore: int,
    tlsGrade: Option<Grade>)

  /** The adjustment bundle `ml_analysis`; the confidence 0.85 is kept in hundredths. */
  datatype MlAnalysis = MlAnalysis(
    scoreAdjustment: int,
    mlFlags: seq<string>,
    mlRiskLevel: RiskLevel,
    mlConfidencePercent: int,
    analysisMethods: seq<string>)

  /** A score report. `score` is in tenths of a point (1000 is 100.0).
      `ml` is `Some` exactly when the report carries `ml_analysis` and
      `ml_enhanced = True`. */
  datatype Report = Report(
    ip: string,
    score: int,
    flags: seq<string>,
    summary: Summary,
    timestamp: string,
    contentHash: string,
    dockerExposure: DockerExposure,
    metrics: Metrics,
    riskLevel: RiskLevel,
    scorerId: string,
    enhancedAnalysis: bool,
    ml: Option<MlAnalysis>)
}
