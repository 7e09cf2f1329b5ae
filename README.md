# pgdn scoring, modelled in Dafny

This project models the two scorers of the pgdn scoring library. Each turns one
host scan record into a trust report.

- **`DefaultScorer.score`** is the baseline rule engine. It starts at 100 points
  and grade A+. It then runs its rules in a fixed order: Docker socket, SSH,
  alternate SSH ports, TLS, each known vulnerability, database ports, and port
  count. Each rule that fires subtracts a weight and appends a flag. The
  Docker, SSH, TLS, vulnerability and database rules also record a risk
  factor; the alternate-SSH and port-count rules record none. The Docker,
  TLS and database rules may lower the grade. The engine then derives a compliance
  score from the flags marked "CRITICAL", clamps the score to 0..100 and
  classifies the risk.
- **`AdvancedScorer.score`** runs the baseline under its own version string.
  It then applies four fixed detections: suspicious port pattern, geographic
  risk, behavioural anomaly and best practices. Their total adjustment shifts
  the score, which is clamped again. The detections' flags follow the base
  flags, and the adjustment bundle is attached to the report.

Scores are kept in **tenths of a point**: 1000 is 100.0. The fractional
vulnerability penalties 27 and 21.6 are then the exact integers 270 and 216.

Modules:

- `Text` — the Python string operations the rules use: substring test,
  ASCII lower-casing, prefix test, and `str()` of integers and integer lists.
- `Records` — the scan record, the report and their parts.
- `DefaultScorer` — the rules and the declarative report `BaseReport`. The
  report is built rule by rule: 100 less the penalties of the rules that
  fire, their flags in rule order, their risk factors, and the grade the rule
  order leaves. The module also has the imperative `Score`, one method per
  check, and the lemmas that connect the two.
- `DefaultScorerProperties` — what the baseline promises, proved about
  `BaseReport`.
- `AdvancedScorer` — the detections, the adjustment bundle (proved
  step-by-step in `ApplyMlAnalysis`), the merge and the imperative `Score`.
- `AdvancedScorerProperties` — what the advanced scorer promises.

Points where the code's behaviour is easy to misread:

- Severity keywords are matched against the lower-cased `id + " " + desc`,
  which has a space between the two. A keyword that would span the junction of
  a plain concatenation is therefore not found.
- Keywords are matched as substrings, not as words. "Resource" contains
  "rce", so "Resource exhaustion" is CRITICAL (`ResourceExhaustionIsCritical`).
- The TLS check fails when the issuer **equals** "Self-signed". It also fails
  on an expiry that is missing or empty, not only missing.
- The best-practices check rejects an issuer that **contains**
  "Self-signed". An issuer such as "Self-signed CA" passes the TLS check but is
  not good TLS (`SelfSignedVariant`).
- The TLS flag reads "TLS configuration critical issues". It is not marked
  "CRITICAL", so it does not lower the compliance score (`ComplianceCounts`).

## Model

| member | source | states |
|---|---|---|
| Text.Lower | pgdn/scoring/default_scorer.py:149 | `str.lower()` on ASCII keeps the length of the string |
| Text.LowerPointwise | pgdn/scoring/default_scorer.py:149 | each character of `str.lower()` is the lower-cased character at the same position |
| Text.ContainsLower | pgdn/scoring/default_scorer.py:149-157 | a block found in a text is found, lower-cased, in the lower-cased text |
| Text.NatToString | pgdn/scoring/default_scorer.py:117 | `str(n)` of a count is a non-empty string of decimal digits |
| Text.IntListReprChars | pgdn/scoring/default_scorer.py:70 | `str()` of a port list has only digits, signs, commas, spaces and brackets |
| DefaultScorer.Filter | pgdn/scoring/default_scorer.py:67 | the list comprehension never returns more ports than it was given |
| DefaultScorer.FilterMembers | pgdn/scoring/default_scorer.py:67 | the list comprehension keeps exactly the ports that are in the allowed list |
| DefaultScorer.ContainsAnyMeans | pgdn/scoring/default_scorer.py:152-157 | `any(keyword in text for keyword in keywords)` holds iff some keyword of the list occurs in the text |
| DefaultScorer.Clamp | pgdn/scoring/default_scorer.py:124 | `max(lo, min(hi, x))` lies in lo..hi, is x inside it and the nearer bound outside |
| DefaultScorer.CheckDocker | pgdn/scoring/default_scorer.py:50-58 | the Docker check: 2375 costs 35, flags CRITICAL and forces F; otherwise 2376 costs 15 with a warning |
| DefaultScorer.CheckSsh | pgdn/scoring/default_scorer.py:61-64 | port 22 costs 12, flags SSH and records the ssh factor MEDIUM |
| DefaultScorer.CheckAltSsh | pgdn/scoring/default_scorer.py:67-70 | any alternate SSH port costs 8 once, and the flag lists the matched ports |
| DefaultScorer.CheckTls | pgdn/scoring/default_scorer.py:73-88 | a failed TLS check costs 28 and lowers the grade to D unless it is F; a passing one records the issuer grade |
| DefaultScorer.CheckVulns | pgdn/scoring/default_scorer.py:91-103 | the loop over the vulnerabilities, in order, equals the fold of the per-entry rule |
| DefaultScorer.CheckDatabase | pgdn/scoring/default_scorer.py:106-111 | any database port costs 30 once, flags CRITICAL with the matched ports and forces F |
| DefaultScorer.CheckPortCount | pgdn/scoring/default_scorer.py:114-117 | more than five ports cost 2 per extra port |
| DefaultScorer.DockerRuleEffect | pgdn/scoring/default_scorer.py:50-58 | on any state, the Docker rule subtracts its penalty, appends its flags, adds its factor and sets F only for 2375 |
| DefaultScorer.SshRuleEffect | pgdn/scoring/default_scorer.py:61-64 | the SSH rule changes only score, flags and risk factors, by its own penalty, flag and factor |
| DefaultScorer.AltSshRuleEffect | pgdn/scoring/default_scorer.py:67-70 | the alternate SSH rule changes only score and flags |
| DefaultScorer.TlsRuleEffect | pgdn/scoring/default_scorer.py:73-88 | the TLS rule never raises F, and sets the TLS grade exactly when the check passes |
| DefaultScorer.DatabaseRuleEffect | pgdn/scoring/default_scorer.py:106-111 | the database rule sets F exactly when a database port is open |
| DefaultScorer.PortCountRuleEffect | pgdn/scoring/default_scorer.py:114-117 | the port-count rule changes only score and flags |
| DefaultScorer.VulnRulesEffect | pgdn/scoring/default_scorer.py:91-103 | the vulnerability loop subtracts the sum of the entry penalties, appends one flag per entry and adds the `vuln_` factors, and changes nothing else |
| DefaultScorer.ChecksFollowRules | pgdn/scoring/default_scorer.py:38-117 | running the checks in order yields 100 less the total penalty, the flags in rule order, the union of the risk factors, the grade the order leaves and the TLS grade |
| DefaultScorer.Score | pgdn/scoring/default_scorer.py:28-145 | the step-by-step scorer returns exactly the declarative report, with a score in 0..100 |
| DefaultScorerProperties.VulnFlagsShape | pgdn/scoring/default_scorer.py:91-102 | one vulnerability flag per entry, in entry order, naming the entry's id and assessed severity |
| DefaultScorerProperties.VulnFlagsLength | pgdn/scoring/default_scorer.py:91-102 | the vulnerability loop appends exactly one flag per entry |
| DefaultScorerProperties.VulnFlagAt | pgdn/scoring/default_scorer.py:91-102 | the flag at position k names entry k and its assessed severity |
| DefaultScorerProperties.VulnPenaltySumBounds | pgdn/scoring/default_scorer.py:94-101 | n vulnerabilities cost between 18n and 27n points |
| DefaultScorerProperties.WeightsCharged | pgdn/scoring/default_scorer.py:19-26 | on any port list and TLS mapping, each weight is charged at its value: 35 when 2375 is open, else 15 when 2376 is; 12 for SSH; 8 once iff an alternate SSH port is open; 28 for failed TLS; a flat 30 iff any database port is open; 2 per port past five; 18 times 1.5, 1.2 or 1 for a CRITICAL, HIGH or other vulnerability |
| DefaultScorerProperties.BaseScoreFloor | pgdn/scoring/default_scorer.py:38-124 | the total penalty is never negative, so the report's score is 100 less the total penalty, floored at 0 |
| DefaultScorerProperties.VulnKeyInjective | pgdn/scoring/default_scorer.py:103 | distinct ids give distinct `vuln_` keys |
| DefaultScorerProperties.VulnFactorsKeys | pgdn/scoring/default_scorer.py:91-103 | a key is a `vuln_` factor exactly when it is the key of some entry |
| DefaultScorerProperties.VulnFactorsValues | pgdn/scoring/default_scorer.py:91-103 | with distinct ids, each entry's key holds that entry's assessed severity |
| DefaultScorerProperties.VulnFactorsPrefixed | pgdn/scoring/default_scorer.py:103 | every vulnerability factor key starts with "vuln_" |
| DefaultScorerProperties.FixedKeysNotVuln | pgdn/scoring/default_scorer.py:53-110 | no vulnerability key collides with "docker", "ssh", "tls" or "database" |
| DefaultScorerProperties.FixedKeyFromRule | pgdn/scoring/default_scorer.py:53-110 | each of "docker", "ssh", "tls" and "database" is in the risk factors iff its own rule set it, with that rule's severity |
| DefaultScorerProperties.CriticalInId | pgdn/scoring/default_scorer.py:149-153 | an id mentioning "CRITICAL" makes the entry CRITICAL, whatever the description |
| DefaultScorerProperties.VulnFlagCritical | pgdn/scoring/default_scorer.py:102-120 | a vulnerability flag counts as a compliance issue iff the entry is CRITICAL, in both directions |
| DefaultScorerProperties.CountCriticalConcat | pgdn/scoring/default_scorer.py:120 | the CRITICAL-flag count of two flag lists adds up |
| DefaultScorerProperties.VulnFlagsCountCritical | pgdn/scoring/default_scorer.py:102-120 | the vulnerability flags add one compliance issue per CRITICAL entry |
| DefaultScorerProperties.PortCountFlagNoC | pgdn/scoring/default_scorer.py:117-120 | the port-count flag is never a compliance issue |
| DefaultScorerProperties.DockerFlagsCountCritical | pgdn/scoring/default_scorer.py:52-57 | the Docker flags add one issue for 2375 and none for 2376 |
| DefaultScorerProperties.DockerFlagMarked | pgdn/scoring/default_scorer.py:52 | the unencrypted Docker socket flag carries the "CRITICAL" marker |
| DefaultScorerProperties.DatabaseFlagsCountCritical | pgdn/scoring/default_scorer.py:106-120 | the database flag adds one compliance issue exactly when a database port is open |
| DefaultScorerProperties.PortCountFlagsCountCritical | pgdn/scoring/default_scorer.py:114-120 | the port-count rule adds no compliance issue |
| DefaultScorerProperties.AltSshFlagsCountCritical | pgdn/scoring/default_scorer.py:70 | the alternate SSH flag is never a compliance issue |
| DefaultScorerProperties.EarlyFlagsCountCritical | pgdn/scoring/default_scorer.py:50-88 | of the checks before the vulnerability loop, only the unencrypted Docker socket counts |
| DefaultScorerProperties.RuleFlagsCountCritical | pgdn/scoring/default_scorer.py:50-120 | the flags marked CRITICAL are the Docker-2375 flag, one per CRITICAL vulnerability and the database flag |
| DefaultScorerProperties.ComplianceCounts | pgdn/scoring/default_scorer.py:119-121 | compliance is 100 less 25 per Docker-2375 exposure, CRITICAL vulnerability and database exposure, floored at 0; the TLS flag does not count |
| DefaultScorerProperties.CountCriticalZero | pgdn/scoring/default_scorer.py:120 | the CRITICAL-flag count is at most the number of flags, and zero exactly when no flag holds "CRITICAL" |
| DefaultScorerProperties.ComplianceRange | pgdn/scoring/default_scorer.py:120-121 | the compliance score is a multiple of 25 in 0..100; 100 exactly when no flag holds "CRITICAL", 0 exactly from four such flags on |
| DefaultScorerProperties.VulnFlagsHead | pgdn/scoring/default_scorer.py:102 | every vulnerability flag starts with "Vulnerability: " |
| DefaultScorerProperties.VulnFlagStarts | pgdn/scoring/default_scorer.py:102 | a vulnerability flag starts with "Vulnerability: ", whatever the id and severity |
| DefaultScorerProperties.TlsFlagIffFails | pgdn/scoring/default_scorer.py:74-76 | the TLS flag is in the report iff the TLS check failed |
| DefaultScorerProperties.EarlyFlagsHead | pgdn/scoring/default_scorer.py:50-88 | the flags of the checks before the vulnerability loop start with C, W, S, A or T |
| DefaultScorerProperties.LateFlagsHead | pgdn/scoring/default_scorer.py:106-117 | the database flag starts with C and the port-count flag with E |
| DefaultScorerProperties.RuleFlagsHead | pgdn/scoring/default_scorer.py:52-117 | every base flag starts with one of A, C, E, S, T, V, W, and never with M |
| DefaultScorerProperties.PortRiskFactors | pgdn/scoring/default_scorer.py:53-110 | "docker" is set iff 2375 or 2376 is open (CRITICAL for 2375, else MEDIUM); "ssh" iff 22 (MEDIUM); "database" iff a database port (CRITICAL) |
| DefaultScorerProperties.RiskFactorVocabulary | pgdn/scoring/default_scorer.py:53-110 | every risk factor key is "docker", "ssh", "tls", "database" or starts with "vuln_" |
| DefaultScorerProperties.TlsRiskFactor | pgdn/scoring/default_scorer.py:77 | "tls" is set, to CRITICAL, iff the TLS check failed |
| DefaultScorerProperties.GradeFollowsRiskFactors | pgdn/scoring/default_scorer.py:43-111 | the grade is F iff docker is CRITICAL or a database factor exists; otherwise D iff a tls factor exists; otherwise A+; the TLS grade is set iff the TLS flag is absent |
| DefaultScorerProperties.PerfectScoreIffNoFlags | pgdn/scoring/default_scorer.py:38-124 | the score is 100 iff no flag is raised, and then the grade is A+, the risk MINIMAL and compliance 100 |
| DefaultScorerProperties.BaseRiskLevels | pgdn/scoring/default_scorer.py:161-172 | each risk level of a base report, characterised both ways by score band and grade |
| DefaultScorerProperties.PgdnRiskMonotone | pgdn/scoring/default_scorer.py:161-172 | for a fixed grade, a lower score never gives a lower risk |
| DefaultScorerProperties.FilterAppend | pgdn/scoring/default_scorer.py:67 | filtering a list with one more port appends that port exactly when it is allowed |
| DefaultScorerProperties.FilterDisjoint | pgdn/scoring/default_scorer.py:106 | no allowed port open means no match |
| DefaultScorerProperties.AddOtherPort | pgdn/scoring/default_scorer.py:67-111 | opening a port outside both lists leaves the alternate SSH and database matches unchanged |
| DefaultScorerProperties.DockerSocketCost | pgdn/scoring/default_scorer.py:50-54 | opening 2375 on a host without Docker ports adds exactly 35 points of penalty, plus 2 if the list passes five ports, and forces F |
| DefaultScorerProperties.DockerSocketRuleFlags | pgdn/scoring/default_scorer.py:50-70 | opening 2375 on such a host yields the CRITICAL Docker flag and leaves the SSH flags unchanged |
| DefaultScorerProperties.DockerSocketEarlyFlags | pgdn/scoring/default_scorer.py:50-88 | that new Docker flag comes first among the early flags |
| DefaultScorerProperties.DockerSocketFlags | pgdn/scoring/default_scorer.py:50-117 | on a host with fewer than five ports, the Docker flag is prepended and every other flag stays |
| DefaultScorerProperties.SeverityIgnoresCase | pgdn/scoring/default_scorer.py:149 | lower-casing id and description first does not change the severity |
| DefaultScorerProperties.TextSeverityCascade | pgdn/scoring/default_scorer.py:147-159 | the severity is CRITICAL iff a CRITICAL keyword occurs; HIGH iff none does and a HIGH keyword does; MEDIUM iff neither does and a MEDIUM keyword does; LOW iff no keyword of any list occurs |
| DefaultScorerProperties.XssTextIsMedium | pgdn/scoring/default_scorer.py:152-157 | a text with "xss" and no CRITICAL or HIGH keyword is MEDIUM |
| DefaultScorerProperties.XssTextKeywords | pgdn/scoring/default_scorer.py:149-155 | "x-1 xss" holds no CRITICAL or HIGH keyword |
| DefaultScorerProperties.XssIsMedium | pgdn/scoring/default_scorer.py:149-157 | ("X-1", "XSS") is MEDIUM |
| DefaultScorerProperties.CriticalKeywordIn | pgdn/scoring/default_scorer.py:149-153 | a CRITICAL keyword, in any case, anywhere in id plus description makes the entry CRITICAL |
| DefaultScorerProperties.RceIsCritical | pgdn/scoring/default_scorer.py:152-153 | ("CVE-1", "RCE in parser") is CRITICAL |
| DefaultScorerProperties.ResourceExhaustionIsCritical | pgdn/scoring/default_scorer.py:149-153 | substring matching makes ("CVE-2", "Resource exhaustion") CRITICAL |
| DefaultScorerProperties.EmptyRecord | pgdn/scoring/default_scorer.py:28-145 | an empty record scores 72 with only the TLS flag, grade D, MODERATE risk, compliance 100, ip "unknown" |
| DefaultScorerProperties.IssuerGradeCases | pgdn/scoring/default_scorer.py:81-88 | the TLS grade is B iff the lower-cased issuer names Let's Encrypt, otherwise A iff it names DigiCert, Comodo or GlobalSign, otherwise C |
| DefaultScorerProperties.DigiCertIsPremium | pgdn/scoring/default_scorer.py:82-86 | an issuer naming DigiCert and no apostrophe gets TLS grade A |
| DefaultScorerProperties.PremiumHttpsRules | pgdn/scoring/default_scorer.py:50-117 | such a host raises no flag and gets TLS grade A |
| DefaultScorerProperties.PremiumHttpsHost | pgdn/scoring/default_scorer.py:28-145 | no flagged port, no vulnerability and a valid DigiCert certificate: score 100, TLS grade A, MINIMAL risk |
| DefaultScorerProperties.ExposedHost | pgdn/scoring/default_scorer.py:50-124 | Docker 2375, SSH, a database port and failed TLS: score 0, grade F, CRITICAL risk, compliance at most 50 |
| DefaultScorerProperties.DockerOnlyHost | pgdn/scoring/default_scorer.py:28-145 | only Docker 2375 open, no TLS, no vulnerabilities: score 37 with the Docker and TLS flags, grade F, CRITICAL risk, compliance 75 |
| DefaultScorerProperties.DockerOnlyRules | pgdn/scoring/default_scorer.py:50-117 | such a host raises exactly the Docker flag and the TLS flag, in that order, and gets grade F |
| DefaultScorerProperties.DockerOnlyPenalty | pgdn/scoring/default_scorer.py:50-117 | such a host pays 35 points for the Docker socket and 28 for TLS, nothing else |
| AdvancedScorer.IsSuspiciousPortPattern | pgdn/scoring/advanced_scorer.py:113-130 | the pattern loop answers true iff there are more than 10 ports or some attack pattern is fully open |
| AdvancedScorer.GeoRiskPercent | pgdn/scoring/advanced_scorer.py:132-144 | the geographic risk, in hundredths, is below 100 |
| AdvancedScorer.ApplyMlAnalysis | pgdn/scoring/advanced_scorer.py:70-111 | the step-by-step accumulation equals the detection-by-detection bundle: summed terms, flags in fixed order, risk label, confidence 85, the four methods |
| AdvancedScorer.Score | pgdn/scoring/advanced_scorer.py:30-68 | the advanced scorer returns exactly the merge of the base report under "2.0.0-advanced" with the bundle, score in 0..100 |
| AdvancedScorerProperties.SetOfSeqSize | pgdn/scoring/advanced_scorer.py:176 | a port list has at least as many entries as distinct ports |
| AdvancedScorerProperties.PortDetectionsMonotone | pgdn/scoring/advanced_scorer.py:113-160 | opening more ports never clears the suspicious-pattern or the behavioural-anomaly detection |
| AdvancedScorerProperties.GoodTlsBaseline | pgdn/scoring/advanced_scorer.py:174 | for good TLS, the baseline TLS check fails exactly when the expiry is missing or empty |
| AdvancedScorerProperties.AnomalyExcludesBestPractices | pgdn/scoring/advanced_scorer.py:146-179 | the behavioural anomaly (four distinct ports) and best practices (at most three ports) never fire together |
| AdvancedScorerProperties.LocalIpNoGeoFlag | pgdn/scoring/advanced_scorer.py:132-140 | private and loopback addresses are never flagged for geographic risk |
| AdvancedScorerProperties.PublicIpGeoFlag | pgdn/scoring/advanced_scorer.py:86-90 | a public address is flagged iff its digest value modulo 100 exceeds 70 |
| AdvancedScorerProperties.MlAdjustmentRange | pgdn/scoring/advanced_scorer.py:78-100 | the adjustment is a multiple of 5 in -45..+5 and never -40 |
| AdvancedScorerProperties.MlFlagsMatchDetections | pgdn/scoring/advanced_scorer.py:81-100 | each ML flag is present iff its detection fired; at most three flags |
| AdvancedScorerProperties.MlRiskReflectsDetections | pgdn/scoring/advanced_scorer.py:181-190 | the ML risk is LOW iff no penalising detection fired, CRITICAL only if two or more did, never MINIMAL |
| AdvancedScorerProperties.MlRiskMonotone | pgdn/scoring/advanced_scorer.py:181-190 | a larger adjustment never gives a higher ML risk, and the ML risk is never MINIMAL |
| AdvancedScorerProperties.MergeKeepsBase | pgdn/scoring/advanced_scorer.py:47-66 | the merge keeps every base field except score, flags, summary and scorer id; base flags first, ML flags after; adjusted score clamped to 0..100 and exact when in range |
| AdvancedScorerProperties.AdvancedScoreNearBase | pgdn/scoring/advanced_scorer.py:41-48 | the advanced score is within 45 points below and 5 above the base score, and in 0..100 |
| AdvancedScorerProperties.MlFlagsStartMarked | pgdn/scoring/advanced_scorer.py:84-100 | every ML flag starts with "ML: " |
| AdvancedScorerProperties.MlFlagsAreMarked | pgdn/scoring/advanced_scorer.py:51 | in the advanced flags, the ML flags are exactly those starting with "ML: " |
| AdvancedScorerProperties.SelfSignedVariant | pgdn/scoring/advanced_scorer.py:174 | "Self-signed CA" passes the baseline TLS check but is not good TLS |
| AdvancedScorerProperties.CompromisedLookingHost | pgdn/scoring/advanced_scorer.py:146-160 | SSH, MySQL, HTTP and Docker 2375 with failed TLS: score 0, anomaly flagged, ML risk HIGH or CRITICAL |
| AdvancedScorerProperties.PrivateHttpsAnalysis | pgdn/scoring/advanced_scorer.py:162-179 | a private HTTPS-only host with good TLS gets the +5 bonus alone, ML risk LOW |
| AdvancedScorerProperties.PrivateHttpsHost | pgdn/scoring/advanced_scorer.py:30-68 | such a host with a DigiCert certificate stays at 100, and its only flag is the best-practices one |

## Left out

- The content hash is the parameter `contentHash`: SHA-256 of the key-sorted JSON dump of the record is not modelled.
- The timestamp is a string parameter, so the clock is not read.
- The MD5 digest is the parameter `md5Prefix`: the value of the first eight hex digits of the digest of the ip.
- Summary strings are not rendered: the `Summary` datatype keeps what they are built from (score, version, grade or ML risk). The f-string wording and the Python float formatting of the score are not modelled.
- Scores are exact tenths. Python's float arithmetic (for example 100 - 27 - 21.6) can differ from them in the last binary digit. No threshold of the model lies close enough to a reachable fractional score for that to change a decision.
- `risk_factors` is a `map`, so the insertion order of the Python dict is not kept.
- Lower-casing covers ASCII letters only. Python's Unicode case mapping of other letters is not modelled.
- A record is well typed: string ids, descriptions, issuers and ips, and an integer port list. Non-string issuers (which `str()` would render), an explicit `None` as a value other than `tls`, and other falsy expiry values besides `None` and `""` are not modelled.
- A missing `ip` is `None`, which the base report renders as "unknown" and the geographic check reads as "".
- `docker_exposure` is reduced to its `exposed` field and is passed through unchanged.
- The `ml_weights` table of `AdvancedScorer.__init__` is never read by the code, so it is not modelled.
- The `__init__` methods become constants (`WEIGHTS`, `VERSION`). The scorers have no mutable state, so they are modules, not classes. The version that `AdvancedScorer.__init__` overrides becomes the `version` argument of `DefaultScorer.Score`.
- `setup.py` and `pgdn/scoring/__init__.py` are packaging only and are not part of this model.
- AdvancedScorer.GeoRiskPercent: its contract states only the range. Whether it raises the geographic flag for private, loopback and public addresses is stated by `LocalIpNoGeoFlag` and `PublicIpGeoFlag`.
