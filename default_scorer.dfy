/** The baseline rule engine (`DefaultScorer`). Scores are kept in tenths of
    a point, so that the fractional vulnerability penalties 27 and 21.6 are
    exact integers (270 and 216).

    `BaseReport` describes the report rule by rule: the score is 100 minus
    the sum of the penalties of the rules that fire, the flags are the flags
    of the rules in their fixed order, and the grade is the one the order of
    the rules leaves behind. `Score` is the step-by-step computation of that
    report. */
module DefaultScorer {
  import opened Text
  import opened Records

  const VERSION := "1.0.0"
  const SCORER_ID := "pgdn.scoring.default_scorer.DefaultScorer"

  /** The weight table, in whole points. */
  datatype Weights = Weights(
    dockerExposure: nat,
    sshOpen: nat,
    tlsIssues: nat,
    vulnerabilities: nat,
    openPorts: nat,
    databaseExposure: nat)

  const WEIGHTS := Weights(35, 12, 28, 18, 2, 30)

  /** Tenths per point. */
  const TENTHS := 10
  const FULL_SCORE := 100 * TENTHS
  /** Fixed penalties written in the code rather than in the weight table. */
  const DOCKER_TLS_PENALTY := 15
  const ALT_SSH_PENALTY := 8
  /** Port counts above this limit are penalised per extra port. */
  const PORT_LIMIT := 5

  const DOCKER_PORT := 2375
  const DOCKER_TLS_PORT := 2376
  const SSH_PORT := 22
  const ALT_SSH_PORTS := [2222, 2200, 2022]
  const DATABASE_PORTS := [3306, 5432, 27017, 6379, 1433, 1521]

  /** The marker the compliance score counts. */
  const CRITICAL_MARK := "CRITICAL"
  /** "CRITICAL: Docker socket exposed (unencrypted)". */
  const DOCKER_FLAG := CRITICAL_MARK + ": Docker socket exposed (unencrypted)"
  const DOCKER_TLS_FLAG := "WARNING: Docker TLS socket exposed"
  const SSH_FLAG := "SSH port exposed"
  const TLS_FLAG := "TLS configuration critical issues"

  const CRITICAL_KEYWORDS := ["critical", "rce", "remote code execution", "unauthenticated"]
  const HIGH_KEYWORDS := ["high", "privilege escalation", "buffer overflow"]
  const MEDIUM_KEYWORDS := ["medium", "dos", "denial of service", "xss"]
  const PREMIUM_ISSUERS := ["digicert", "comodo", "globalsign"]

  // ---------------------------------------------------------------- helpers

  /** `[p for p in ports if p in allowed]`. */
  function Filter(ports: seq<int>, allowed: seq<int>): (r: seq<int>)
    ensures |r| <= |ports|
  {
    if ports == [] then []
    else (if ports[0] in allowed then [ports[0]] else []) + Filter(ports[1..], allowed)
  }

  /** The filter keeps exactly the ports that are in the allowed list. */
  lemma {:induction false} FilterMembers(ports: seq<int>, allowed: seq<int>)
    ensures forall x :: x in Filter(ports, allowed) <==> x in ports && x in allowed
  {
    if ports != [] {
      FilterMembers(ports[1..], allowed);
      assert forall x :: x in ports <==> x == ports[0] || x in ports[1..];
    }
  }

  /** `any(k in text for k in keywords)`. */
  predicate ContainsAny(text: string, keywords: seq<string>) {
    keywords != [] && (Contains(text, keywords[0]) || ContainsAny(text, keywords[1..]))
  }

  /** Some keyword of the list occurs in the text. */
  lemma {:induction false} ContainsAnyMeans(text: string, keywords: seq<string>)
    ensures ContainsAny(text, keywords) <==> exists k :: k in keywords && Contains(text, k)
  {
    if keywords != [] {
      ContainsAnyMeans(text, keywords[1..]);
      assert forall k :: k in keywords <==> k == keywords[0] || k in keywords[1..];
    }
  }

  /** `max(lo, min(hi, x))`. */
  function Clamp(x: int, lo: int, hi: int): (r: int)
    requires lo <= hi
    ensures lo <= r <= hi
    ensures lo <= x <= hi ==> r == x
    ensures x < lo ==> r == lo
    ensures hi < x ==> r == hi
  {
    if x < lo then lo else if hi < x then hi else x
  }

  function SeverityName(s: Severity): string {
    match s
    case Critical => "CRITICAL"
    case High => "HIGH"
    case Medium => "MEDIUM"
    case Low => "LOW"
  }

  // ------------------------------------------------------------ the rules

  /** `_assess_vuln_severity`: the first keyword list that matches the
      lower-cased text `id + " " + desc` decides. */
  function VulnText(id: string, desc: string): string {
    Lower(id + " " + desc)
  }

  function AssessVulnSeverity(id: string, desc: string): Severity {
    TextSeverity(VulnText(id, desc))
  }

  function TextSeverity(text: string): Severity {
    if ContainsAny(text, CRITICAL_KEYWORDS) then Critical
    else if ContainsAny(text, HIGH_KEYWORDS) then High
    else if ContainsAny(text, MEDIUM_KEYWORDS) then Medium
    else Low
  }

  /** The TLS check fails on a missing or empty `tls` mapping, on an issuer
      that is missing or exactly "Self-signed", and on a missing or empty
      expiry. */
  predicate TlsFails(tls: Option<Tls>) {
    match tls
    case None => true
    case Some(t) =>
      t.issuer == None || t.issuer == Some("Self-signed")
      || t.expiry == None || t.expiry == Some("")
  }

  /** `tls_grade` of an issuer that passed the TLS check. */
  function IssuerGrade(issuer: string): Grade {
    var name := Lower(issuer);
    if Contains(name, "let's encrypt") then B
    else if ContainsAny(name, PREMIUM_ISSUERS) then A
    else C
  }

  function TlsGradeOf(tls: Option<Tls>): Option<Grade> {
    if TlsFails(tls) then None else Some(IssuerGrade(tls.value.issuer.value))
  }

  /** `penalty` for one vulnerability, in tenths: the vulnerability weight
      times 1.5, 1.2 or 1. */
  function VulnPenalty(s: Severity): int {
    match s
    case Critical => WEIGHTS.vulnerabilities * 15
    case High => WEIGHTS.vulnerabilities * 12
    case _ => WEIGHTS.vulnerabilities * TENTHS
  }

  function VulnKey(id: string): string {
    "vuln_" + id
  }

  function VulnFlag(id: string, s: Severity): string {
    "Vulnerability: " + id + " (" + SeverityName(s) + ")"
  }

  function AltSshFlag(found: seq<int>): string {
    "Alternative SSH ports detected: " + IntListRepr(found)
  }

  function DatabaseFlag(found: seq<int>): string {
    CRITICAL_MARK + ": Database ports exposed: " + IntListRepr(found)
  }

  function PortCountFlag(count: nat): string {
    "Excessive port exposure: " + NatToString(count) + " ports"
  }

  function AltSshPorts(ports: seq<int>): seq<int> {
    Filter(ports, ALT_SSH_PORTS)
  }

  function DatabasePorts(ports: seq<int>): seq<int> {
    Filter(ports, DATABASE_PORTS)
  }

  // ------------------------------------------- the report, rule by rule

  /** Penalties in tenths, one per rule. */
  function DockerPenalty(ports: seq<int>): int {
    if DOCKER_PORT in ports then WEIGHTS.dockerExposure * TENTHS
    else if DOCKER_TLS_PORT in ports then DOCKER_TLS_PENALTY * TENTHS
    else 0
  }

  function SshPenalty(ports: seq<int>): int {
    if SSH_PORT in ports then WEIGHTS.sshOpen * TENTHS else 0
  }

  function AltSshPenalty(ports: seq<int>): int {
    if AltSshPorts(ports) != [] then ALT_SSH_PENALTY * TENTHS else 0
  }

  function TlsPenalty(tls: Option<Tls>): int {
    if TlsFails(tls) then WEIGHTS.tlsIssues * TENTHS else 0
  }

  function VulnPenaltySum(vulns: seq<(string, string)>): int {
    if vulns == [] then 0
    else
      var (id, desc) := vulns[|vulns| - 1];
      VulnPenaltySum(vulns[..|vulns| - 1]) + VulnPenalty(AssessVulnSeverity(id, desc))
  }

  function DatabasePenalty(ports: seq<int>): int {
    if DatabasePorts(ports) != [] then WEIGHTS.databaseExposure * TENTHS else 0
  }

  function PortCountPenalty(ports: seq<int>): int {
    if |ports| > PORT_LIMIT then (|ports| - PORT_LIMIT) * WEIGHTS.openPorts * TENTHS else 0
  }

  /** The penalties of the checks that run before the vulnerability loop. */
  function EarlyPenalty(scan: ScanRecord): int {
    DockerPenalty(scan.openPorts) + SshPenalty(scan.openPorts)
    + AltSshPenalty(scan.openPorts) + TlsPenalty(scan.tls)
  }

  function TotalPenalty(scan: ScanRecord): int {
    EarlyPenalty(scan) + VulnPenaltySum(scan.vulns)
    + DatabasePenalty(scan.openPorts) + PortCountPenalty(scan.openPorts)
  }

  /** The flags, one list per rule. */
  function DockerFlags(ports: seq<int>): seq<string> {
    if DOCKER_PORT in ports then [DOCKER_FLAG]
    else if DOCKER_TLS_PORT in ports then [DOCKER_TLS_FLAG]
    else []
  }

  function SshFlags(ports: seq<int>): seq<string> {
    if SSH_PORT in ports then [SSH_FLAG] else []
  }

  function AltSshFlags(ports: seq<int>): seq<string> {
    var found := AltSshPorts(ports);
    if found != [] then [AltSshFlag(found)] else []
  }

  function TlsFlags(tls: Option<Tls>): seq<string> {
    if TlsFails(tls) then [TLS_FLAG] else []
  }

  function VulnFlags(vulns: seq<(string, string)>): seq<string> {
    if vulns == [] then []
    else
      var (id, desc) := vulns[|vulns| - 1];
      VulnFlags(vulns[..|vulns| - 1]) + [VulnFlag(id, AssessVulnSeverity(id, desc))]
  }

  function DatabaseFlags(ports: seq<int>): seq<string> {
    var found := DatabasePorts(ports);
    if found != [] then [DatabaseFlag(found)] else []
  }

  function PortCountFlags(ports: seq<int>): seq<string> {
    if |ports| > PORT_LIMIT then [PortCountFlag(|ports|)] else []
  }

  function EarlyFlags(scan: ScanRecord): seq<string> {
    DockerFlags(scan.openPorts) + SshFlags(scan.openPorts)
    + AltSshFlags(scan.openPorts) + TlsFlags(scan.tls)
  }

  /** All flags, in the order the rules run. */
  function RuleFlags(scan: ScanRecord): seq<string> {
    EarlyFlags(scan) + VulnFlags(scan.vulns)
    + DatabaseFlags(scan.openPorts) + PortCountFlags(scan.openPorts)
  }

  /** The risk factors, one map per rule. */
  function DockerFactor(ports: seq<int>): map<string, Severity> {
    if DOCKER_PORT in ports then map["docker" := Critical]
    else if DOCKER_TLS_PORT in ports then map["docker" := Medium]
    else map[]
  }

  function SshFactor(ports: seq<int>): map<string, Severity> {
    if SSH_PORT in ports then map["ssh" := Medium] else map[]
  }

  function TlsFactor(tls: Option<Tls>): map<string, Severity> {
    if TlsFails(tls) then map["tls" := Critical] else map[]
  }

  function VulnFactors(vulns: seq<(string, string)>): map<string, Severity> {
    if vulns == [] then map[]
    else
      var (id, desc) := vulns[|vulns| - 1];
      VulnFactors(vulns[..|vulns| - 1])[VulnKey(id) := AssessVulnSeverity(id, desc)]
  }

  function DatabaseFactor(ports: seq<int>): map<string, Severity> {
    if DatabasePorts(ports) != [] then map["database" := Critical] else map[]
  }

  function EarlyFactors(scan: ScanRecord): map<string, Severity> {
    DockerFactor(scan.openPorts) + SshFactor(scan.openPorts) + TlsFactor(scan.tls)
  }

  function RiskFactors(scan: ScanRecord): map<string, Severity> {
    EarlyFactors(scan) + VulnFactors(scan.vulns) + DatabaseFactor(scan.openPorts)
  }

  /** The grade the rules leave: Docker and database exposure force F, a
      failed TLS check lowers A+ to D but never raises F. */
  function SecurityGrade(scan: ScanRecord): Grade {
    if DOCKER_PORT in scan.openPorts || DatabasePorts(scan.openPorts) != [] then F
    else if TlsFails(scan.tls) then D
    else APlus
  }

  /** The number of flags that contain "CRITICAL". */
  function CountCritical(flags: seq<string>): nat {
    if flags == [] then 0
    else (if Contains(flags[0], CRITICAL_MARK) then 1 else 0) + CountCritical(flags[1..])
  }

  function Compliance(flags: seq<string>): int {
    var issues := CountCritical(flags);
    if 100 - issues * 25 < 0 then 0 else 100 - issues * 25
  }

  /** `_calculate_pgdn_risk`, on a score in tenths. */
  function PgdnRisk(score: int, grade: Grade): RiskLevel {
    if score >= 95 * TENTHS && grade in {APlus, A} then MinimalRisk
    else if score >= 85 * TENTHS && grade in {APlus, A, B} then LowRisk
    else if score >= 70 * TENTHS then ModerateRisk
    else if score >= 50 * TENTHS then HighRisk
    else CriticalRisk
  }

  /** The report `score` returns for `scan` when the scorer's version is
      `version`. The content hash (SHA-256 of the key-sorted JSON of the
      record) and the clock are supplied by the caller. */
  function BaseReport(version: string, scan: ScanRecord,
                      contentHash: ScanRecord -> string, timestamp: string): Report
  {
    var score := Clamp(FULL_SCORE - TotalPenalty(scan), 0, FULL_SCORE);
    var grade := SecurityGrade(scan);
    var flags := RuleFlags(scan);
    var metrics := Metrics(version, RiskFactors(scan), grade, Compliance(flags), TlsGradeOf(scan.tls));
    var risk := PgdnRisk(score, grade);
    Report(scan.ip.GetOr("unknown"), score, flags, BaseSummary(score, version, grade, risk),
           timestamp, contentHash(scan), scan.dockerExposure.GetOr(DockerExposure(false)),
           metrics, risk, SCORER_ID, true, None)
  }

  // ------------------------------------------- the checks, step by step

  /** The state `score` updates check by check: the local score and flag
      list, and the parts of `pgdn_metrics` the checks change. */
  datatype Tally = Tally(
    score: int,
    flags: seq<string>,
    riskFactors: map<string, Severity>,
    grade: Grade,
    tlsGrade: Option<Grade>)

  const START := Tally(FULL_SCORE, [], map[], APlus, None)

  function DockerRule(openPorts: seq<int>, t: Tally): Tally {
    if DOCKER_PORT in openPorts then
      t.(score := t.score - WEIGHTS.dockerExposure * TENTHS, flags := t.flags + [DOCKER_FLAG],
         riskFactors := t.riskFactors["docker" := Critical], grade := F)
    else if DOCKER_TLS_PORT in openPorts then
      t.(score := t.score - DOCKER_TLS_PENALTY * TENTHS, flags := t.flags + [DOCKER_TLS_FLAG],
         riskFactors := t.riskFactors["docker" := Medium])
    else t
  }

  function SshRule(openPorts: seq<int>, t: Tally): Tally {
    if SSH_PORT in openPorts then
      t.(score := t.score - WEIGHTS.sshOpen * TENTHS, flags := t.flags + [SSH_FLAG],
         riskFactors := t.riskFactors["ssh" := Medium])
    else t
  }

  function AltSshRule(openPorts: seq<int>, t: Tally): Tally {
    var found := AltSshPorts(openPorts);
    if found != [] then
      t.(score := t.score - ALT_SSH_PENALTY * TENTHS, flags := t.flags + [AltSshFlag(found)])
    else t
  }

  function TlsRule(tls: Option<Tls>, t: Tally): Tally {
    if TlsFails(tls) then
      t.(score := t.score - WEIGHTS.tlsIssues * TENTHS, flags := t.flags + [TLS_FLAG],
         riskFactors := t.riskFactors["tls" := Critical],
         grade := if t.grade != F then D else t.grade)
    else t.(tlsGrade := Some(IssuerGrade(tls.value.issuer.value)))
  }

  function VulnRule(t: Tally, id: string, desc: string): Tally {
    var severity := AssessVulnSeverity(id, desc);
    t.(score := t.score - VulnPenalty(severity), flags := t.flags + [VulnFlag(id, severity)],
       riskFactors := t.riskFactors[VulnKey(id) := severity])
  }

  function VulnRules(t: Tally, vulns: seq<(string, string)>): Tally {
    if vulns == [] then t
    else
      var (id, desc) := vulns[|vulns| - 1];
      VulnRule(VulnRules(t, vulns[..|vulns| - 1]), id, desc)
  }

  function DatabaseRule(openPorts: seq<int>, t: Tally): Tally {
    var found := DatabasePorts(openPorts);
    if found != [] then
      t.(score := t.score - WEIGHTS.databaseExposure * TENTHS, flags := t.flags + [DatabaseFlag(found)],
         riskFactors := t.riskFactors["database" := Critical], grade := F)
    else t
  }

  function PortCountRule(openPorts: seq<int>, t: Tally): Tally {
    if |openPorts| > PORT_LIMIT then
      t.(score := t.score - (|openPorts| - PORT_LIMIT) * WEIGHTS.openPorts * TENTHS,
         flags := t.flags + [PortCountFlag(|openPorts|)])
    else t
  }

  /** The checks of `score` in their fixed order. */
  function Checks(scan: ScanRecord): Tally {
    var p := scan.openPorts;
    var early := TlsRule(scan.tls, AltSshRule(p, SshRule(p, DockerRule(p, START))));
    PortCountRule(p, DatabaseRule(p, VulnRules(early, scan.vulns)))
  }

  /** The vulnerability loop costs the sum of the entries' penalties,
      appends one flag per entry in order, and touches nothing but the
      score, the flags and the `vuln_` risk factors. */
  lemma {:induction false} VulnRulesEffect(t: Tally, vulns: seq<(string, string)>)
    ensures VulnRules(t, vulns)
         == t.(score := t.score - VulnPenaltySum(vulns), flags := t.flags + VulnFlags(vulns),
               riskFactors := t.riskFactors + VulnFactors(vulns))
  {
    if vulns == [] {
      assert t.flags + [] == t.flags;
      assert t.riskFactors + map[] == t.riskFactors;
    } else {
      var n := |vulns| - 1;
      var front := vulns[..n];
      var id, desc := vulns[n].0, vulns[n].1;
      var severity := AssessVulnSeverity(id, desc);
      VulnRulesEffect(t, front);
      var u := VulnRules(t, front);
      assert VulnRules(t, vulns) == VulnRule(u, id, desc);
      assert VulnPenaltySum(vulns) == VulnPenaltySum(front) + VulnPenalty(severity);
      assert VulnFlags(vulns) == VulnFlags(front) + [VulnFlag(id, severity)];
      assert VulnFactors(vulns) == VulnFactors(front)[VulnKey(id) := severity];
      assert (t.flags + VulnFlags(front)) + [VulnFlag(id, severity)]
          == t.flags + (VulnFlags(front) + [VulnFlag(id, severity)]);
      assert (t.riskFactors + VulnFactors(front))[VulnKey(id) := severity]
          == t.riskFactors + VulnFactors(front)[VulnKey(id) := severity];
    }
  }

  /** Each rule, on any tally: it subtracts its penalty, appends its flags,
      adds its risk factors and moves the grade as the rule order says. */
  lemma DockerRuleEffect(p: seq<int>, t: Tally)
    ensures DockerRule(p, t)
         == t.(score := t.score - DockerPenalty(p), flags := t.flags + DockerFlags(p),
               riskFactors := t.riskFactors + DockerFactor(p),
               grade := if DOCKER_PORT in p then F else t.grade)
  {
    if DOCKER_PORT !in p && DOCKER_TLS_PORT !in p {
      assert t.flags + [] == t.flags;
      assert t.riskFactors + map[] == t.riskFactors;
    }
  }

  lemma SshRuleEffect(p: seq<int>, t: Tally)
    ensures SshRule(p, t)
         == t.(score := t.score - SshPenalty(p), flags := t.flags + SshFlags(p),
               riskFactors := t.riskFactors + SshFactor(p))
  {
    if SSH_PORT !in p {
      assert t.flags + [] == t.flags;
      assert t.riskFactors + map[] == t.riskFactors;
    }
  }

  lemma AltSshRuleEffect(p: seq<int>, t: Tally)
    ensures AltSshRule(p, t)
         == t.(score := t.score - AltSshPenalty(p), flags := t.flags + AltSshFlags(p))
  {
    if AltSshPorts(p) == [] {
      assert t.flags + [] == t.flags;
    }
  }

  lemma TlsRuleEffect(tls: Option<Tls>, t: Tally)
    ensures TlsRule(tls, t)
         == t.(score := t.score - TlsPenalty(tls), flags := t.flags + TlsFlags(tls),
               riskFactors := t.riskFactors + TlsFactor(tls),
               grade := if TlsFails(tls) && t.grade != F then D else t.grade,
               tlsGrade := if TlsFails(tls) then t.tlsGrade else TlsGradeOf(tls))
  {
    if !TlsFails(tls) {
      assert t.flags + [] == t.flags;
      assert t.riskFactors + map[] == t.riskFactors;
    }
  }

  lemma DatabaseRuleEffect(p: seq<int>, t: Tally)
    ensures DatabaseRule(p, t)
         == t.(score := t.score - DatabasePenalty(p), flags := t.flags + DatabaseFlags(p),
               riskFactors := t.riskFactors + DatabaseFactor(p),
               grade := if DatabasePorts(p) != [] then F else t.grade)
  {
    if DatabasePorts(p) == [] {
      assert t.flags + [] == t.flags;
      assert t.riskFactors + map[] == t.riskFactors;
    }
  }

  lemma PortCountRuleEffect(p: seq<int>, t: Tally)
    ensures PortCountRule(p, t)
         == t.(score := t.score - PortCountPenalty(p), flags := t.flags + PortCountFlags(p))
  {
    if |p| <= PORT_LIMIT {
      assert t.flags + [] == t.flags;
    }
  }

  /** Running the checks in order gives the report's parts rule by rule:
      100 minus the penalties of the rules that fire, their flags in rule
      order, their risk factors, and the grade the rule order leaves. */
  lemma ChecksFollowRules(scan: ScanRecord)
    ensures Checks(scan)
         == Tally(FULL_SCORE - TotalPenalty(scan), RuleFlags(scan), RiskFactors(scan),
                  SecurityGrade(scan), TlsGradeOf(scan.tls))
  {
    var p := scan.openPorts;
    var t1 := DockerRule(p, START);
    DockerRuleEffect(p, START);
    assert map[] + DockerFactor(p) == DockerFactor(p);
    assert [] + DockerFlags(p) == DockerFlags(p);
    var t2 := SshRule(p, t1);
    SshRuleEffect(p, t1);
    var t3 := AltSshRule(p, t2);
    AltSshRuleEffect(p, t2);
    var t4 := TlsRule(scan.tls, t3);
    TlsRuleEffect(scan.tls, t3);
    assert t4.flags == EarlyFlags(scan);
    assert t4.riskFactors == EarlyFactors(scan);
    var t5 := VulnRules(t4, scan.vulns);
    VulnRulesEffect(t4, scan.vulns);
    var t6 := DatabaseRule(p, t5);
    DatabaseRuleEffect(p, t5);
    assert (EarlyFactors(scan) + VulnFactors(scan.vulns)) + DatabaseFactor(p) == RiskFactors(scan);
    assert t6.flags == EarlyFlags(scan) + VulnFlags(scan.vulns) + DatabaseFlags(p);
    var t7 := PortCountRule(p, t6);
    PortCountRuleEffect(p, t6);
  }

  // -------------------------------------------------------- the scorer

  method CheckDocker(openPorts: seq<int>, t: Tally) returns (u: Tally)
    ensures u == DockerRule(openPorts, t)
  {
    u := t;
    if DOCKER_PORT in openPorts {
      u := u.(score := u.score - WEIGHTS.dockerExposure * TENTHS);
      u := u.(flags := u.flags + [DOCKER_FLAG]);
      u := u.(riskFactors := u.riskFactors["docker" := Critical]);
      u := u.(grade := F);
    } else if DOCKER_TLS_PORT in openPorts {
      u := u.(score := u.score - DOCKER_TLS_PENALTY * TENTHS);
      u := u.(flags := u.flags + [DOCKER_TLS_FLAG]);
      u := u.(riskFactors := u.riskFactors["docker" := Medium]);
    }
  }

  method CheckSsh(openPorts: seq<int>, t: Tally) returns (u: Tally)
    ensures u == SshRule(openPorts, t)
  {
    u := t;
    if SSH_PORT in openPorts {
      u := u.(score := u.score - WEIGHTS.sshOpen * TENTHS);
      u := u.(flags := u.flags + [SSH_FLAG]);
      u := u.(riskFactors := u.riskFactors["ssh" := Medium]);
    }
  }

  method CheckAltSsh(openPorts: seq<int>, t: Tally) returns (u: Tally)
    ensures u == AltSshRule(openPorts, t)
  {
    u := t;
    var sshAltPorts := Filter(openPorts, ALT_SSH_PORTS);
    if sshAltPorts != [] {
      u := u.(score := u.score - ALT_SSH_PENALTY * TENTHS);
      u := u.(flags := u.flags + [AltSshFlag(sshAltPorts)]);
    }
  }

  method CheckTls(tls: Option<Tls>, t: Tally) returns (u: Tally)
    ensures u == TlsRule(tls, t)
  {
    u := t;
    if TlsFails(tls) {
      u := u.(score := u.score - WEIGHTS.tlsIssues * TENTHS);
      u := u.(flags := u.flags + [TLS_FLAG]);
      u := u.(riskFactors := u.riskFactors["tls" := Critical]);
      if u.grade != F {
        u := u.(grade := D);
      }
    } else {
      u := u.(tlsGrade := Some(IssuerGrade(tls.value.issuer.value)));
    }
  }

  /** The loop over the `vulns` entries, in their insertion order. */
  method CheckVulns(vulns: seq<(string, string)>, t: Tally) returns (u: Tally)
    ensures u == VulnRules(t, vulns)
  {
    u := t;
    var i := 0;
    while i < |vulns|
      invariant 0 <= i <= |vulns|
      invariant u == VulnRules(t, vulns[..i])
    {
      var (vulnId, vulnDesc) := vulns[i];
      var severity := AssessVulnSeverity(vulnId, vulnDesc);
      var penalty := WEIGHTS.vulnerabilities * TENTHS;
      if severity == Critical {
        penalty := penalty * 15 / 10;
      } else if severity == High {
        penalty := penalty * 12 / 10;
      }
      assert vulns[..i + 1][..i] == vulns[..i];
      u := u.(score := u.score - penalty);
      u := u.(flags := u.flags + [VulnFlag(vulnId, severity)]);
      u := u.(riskFactors := u.riskFactors[VulnKey(vulnId) := severity]);
      i := i + 1;
    }
    assert vulns[..i] == vulns;
  }

  method CheckDatabase(openPorts: seq<int>, t: Tally) returns (u: Tally)
    ensures u == DatabaseRule(openPorts, t)
  {
    u := t;
    var dbPorts := Filter(openPorts, DATABASE_PORTS);
    if dbPorts != [] {
      u := u.(score := u.score - WEIGHTS.databaseExposure * TENTHS);
      u := u.(flags := u.flags + [DatabaseFlag(dbPorts)]);
      u := u.(riskFactors := u.riskFactors["database" := Critical]);
      u := u.(grade := F);
    }
  }

  method CheckPortCount(openPorts: seq<int>, t: Tally) returns (u: Tally)
    ensures u == PortCountRule(openPorts, t)
  {
    u := t;
    if |openPorts| > PORT_LIMIT {
      var penalty := (|openPorts| - PORT_LIMIT) * WEIGHTS.openPorts * TENTHS;
      u := u.(score := u.score - penalty);
      u := u.(flags := u.flags + [PortCountFlag(|openPorts|)]);
    }
  }

  /** `DefaultScorer.score`: start at 100 with grade A+, run the checks in
      their fixed order, then derive the compliance score, clamp the score
      and classify the risk. */
  method Score(version: string, scan: ScanRecord,
               contentHash: ScanRecord -> string, timestamp: string) returns (r: Report)
    ensures r == BaseReport(version, scan, contentHash, timestamp)
    ensures 0 <= r.score <= FULL_SCORE
  {
    var openPorts := scan.openPorts;
    var t := START;
    t := CheckDocker(openPorts, t);
    t := CheckSsh(openPorts, t);
    t := CheckAltSsh(openPorts, t);
    t := CheckTls(scan.tls, t);
    t := CheckVulns(scan.vulns, t);
    t := CheckDatabase(openPorts, t);
    t := CheckPortCount(openPorts, t);
    ChecksFollowRules(scan);

    var complianceIssues: int := CountCritical(t.flags);
    var compliance := if 100 - complianceIssues * 25 < 0 then 0 else 100 - complianceIssues * 25;
    var score := Clamp(t.score, 0, FULL_SCORE);
    var metrics := Metrics(version, t.riskFactors, t.grade, compliance, t.tlsGrade);
    var riskLevel := PgdnRisk(score, t.grade);
    r := Report(scan.ip.GetOr("unknown"), score, t.flags, BaseSummary(score, version, t.grade, riskLevel),
                timestamp, contentHash(scan), scan.dockerExposure.GetOr(DockerExposure(false)),
                metrics, riskLevel, SCORER_ID, true, None);
  }
}
