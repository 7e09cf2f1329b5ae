/** What the baseline rule engine promises, proved about `BaseReport`, the
    report `DefaultScorer.Score` computes. */
module DefaultScorerProperties {
  import opened Text
  import opened Records
  import opened DefaultScorer

  /** The ids of a `vulns` mapping are its keys, so no two entries share one. */
  predicate DistinctIds(vulns: seq<(string, string)>) {
    forall i, j :: 0 <= i < j < |vulns| ==> vulns[i].0 != vulns[j].0
  }

  /** The number of entries whose assessed severity is CRITICAL. */
  function NumCritical(vulns: seq<(string, string)>): nat {
    if vulns == [] then 0
    else
      var (id, desc) := vulns[|vulns| - 1];
      NumCritical(vulns[..|vulns| - 1]) + (if AssessVulnSeverity(id, desc) == Critical then 1 else 0)
  }

  // ------------------------------------------------------ vulnerabilities

  lemma {:induction false} VulnFlagsLength(vulns: seq<(string, string)>)
    ensures |VulnFlags(vulns)| == |vulns|
  {
    if vulns != [] {
      VulnFlagsLength(vulns[..|vulns| - 1]);
    }
  }

  /** The flag at position `k` is the flag of entry `k`. */
  lemma {:induction false} VulnFlagAt(vulns: seq<(string, string)>, k: nat)
    requires k < |vulns|
    ensures |VulnFlags(vulns)| == |vulns|
    ensures VulnFlags(vulns)[k] == VulnFlag(vulns[k].0, AssessVulnSeverity(vulns[k].0, vulns[k].1))
  {
    var n := |vulns| - 1;
    var front := vulns[..n];
    VulnFlagsLength(front);
    if k < n {
      VulnFlagAt(front, k);
      assert vulns[k] == front[k];
    }
  }

  /** One flag per entry, in the entries' order, naming the entry's id and
      its assessed severity. */
  lemma VulnFlagsShape(vulns: seq<(string, string)>)
    ensures |VulnFlags(vulns)| == |vulns|
    ensures forall k :: 0 <= k < |vulns| ==>
              VulnFlags(vulns)[k] == VulnFlag(vulns[k].0, AssessVulnSeverity(vulns[k].0, vulns[k].1))
  {
    VulnFlagsLength(vulns);
    forall k | 0 <= k < |vulns|
      ensures VulnFlags(vulns)[k] == VulnFlag(vulns[k].0, AssessVulnSeverity(vulns[k].0, vulns[k].1))
    {
      VulnFlagAt(vulns, k);
    }
  }

  /** n entries cost between 18n and 27n points. */
  lemma {:induction false} VulnPenaltySumBounds(vulns: seq<(string, string)>)
    ensures WEIGHTS.vulnerabilities * TENTHS * |vulns| <= VulnPenaltySum(vulns)
    ensures VulnPenaltySum(vulns) <= WEIGHTS.vulnerabilities * 15 * |vulns|
  {
    if vulns != [] {
      VulnPenaltySumBounds(vulns[..|vulns| - 1]);
    }
  }

  /** The weight table (in whole points) as the rules charge it, in tenths,
      on any port list and any TLS mapping: 2375 costs 35 and otherwise 2376
      costs 15, SSH 12, an alternate SSH port 8 once, a failed TLS check 28,
      a flat 30 for any number of database ports, 2 per port past five, and
      a vulnerability 18 times 1.5 (CRITICAL), 1.2 (HIGH) or 1. */
  lemma WeightsCharged(p: seq<int>, tls: Option<Tls>)
    ensures DOCKER_PORT in p ==> DockerPenalty(p) == 350
    ensures DOCKER_PORT !in p && DOCKER_TLS_PORT in p ==> DockerPenalty(p) == 150
    ensures SSH_PORT in p ==> SshPenalty(p) == 120
    ensures (exists q :: q in ALT_SSH_PORTS && q in p) <==> AltSshPenalty(p) == 80
    ensures TlsFails(tls) ==> TlsPenalty(tls) == 280
    ensures (exists q :: q in DATABASE_PORTS && q in p) <==> DatabasePenalty(p) == 300
    ensures |p| > PORT_LIMIT ==> PortCountPenalty(p) == 20 * (|p| - PORT_LIMIT)
    ensures VulnPenalty(Critical) == 270 && VulnPenalty(High) == 216
    ensures VulnPenalty(Medium) == 180 && VulnPenalty(Low) == 180
  {
    FilterMembers(p, DATABASE_PORTS);
    FilterMembers(p, ALT_SSH_PORTS);
    if DatabasePorts(p) != [] {
      var q := DatabasePorts(p)[0];
      assert q in DATABASE_PORTS && q in p;
    }
    if AltSshPorts(p) != [] {
      var q := AltSshPorts(p)[0];
      assert q in ALT_SSH_PORTS && q in p;
    }
  }

  /** Every penalty is non-negative, so the report's score is 100 less the
      total penalty, floored at 0: the upper bound of the clamp never binds. */
  lemma BaseScoreFloor(version: string, scan: ScanRecord,
                       contentHash: ScanRecord -> string, timestamp: string)
    ensures TotalPenalty(scan) >= 0
    ensures BaseReport(version, scan, contentHash, timestamp).score
            == if TotalPenalty(scan) >= FULL_SCORE then 0 else FULL_SCORE - TotalPenalty(scan)
  {
    VulnPenaltySumBounds(scan.vulns);
  }

  lemma VulnKeyInjective(a: string, b: string)
    requires VulnKey(a) == VulnKey(b)
    ensures a == b
  {
    assert a == VulnKey(a)[5..];
    assert b == VulnKey(b)[5..];
  }

  /** The `vuln_` risk factor keys: one per entry. */
  lemma {:induction false} VulnFactorsKeys(vulns: seq<(string, string)>)
    ensures forall key :: key in VulnFactors(vulns) <==>
              exists k :: 0 <= k < |vulns| && key == VulnKey(vulns[k].0)
  {
    if vulns != [] {
      var n := |vulns| - 1;
      var front := vulns[..n];
      var id, desc := vulns[n].0, vulns[n].1;
      VulnFactorsKeys(front);
      assert VulnFactors(vulns) == VulnFactors(front)[VulnKey(id) := AssessVulnSeverity(id, desc)];
      forall key ensures key in VulnFactors(vulns) <==>
                         exists k :: 0 <= k < |vulns| && key == VulnKey(vulns[k].0) {
        if key == VulnKey(id) {
          assert key == VulnKey(vulns[n].0);
        } else if key in VulnFactors(front) {
          var k :| 0 <= k < n && key == VulnKey(front[k].0);
          assert vulns[k] == front[k];
        }
        if exists k :: 0 <= k < |vulns| && key == VulnKey(vulns[k].0) {
          var k :| 0 <= k < |vulns| && key == VulnKey(vulns[k].0);
          if k < n {
            assert vulns[k] == front[k];
          }
        }
      }
    }
  }

  /** Each entry's key holds that entry's severity; the ids are distinct,
      as the keys of the `vulns` mapping are. */
  lemma {:induction false} VulnFactorsValues(vulns: seq<(string, string)>)
    requires DistinctIds(vulns)
    ensures forall k :: 0 <= k < |vulns| ==>
              VulnKey(vulns[k].0) in VulnFactors(vulns)
              && VulnFactors(vulns)[VulnKey(vulns[k].0)] == AssessVulnSeverity(vulns[k].0, vulns[k].1)
  {
    if vulns != [] {
      var n := |vulns| - 1;
      var front := vulns[..n];
      var id, desc := vulns[n].0, vulns[n].1;
      var sev := AssessVulnSeverity(id, desc);
      forall i, j | 0 <= i < j < |front| ensures front[i].0 != front[j].0 {
        assert front[i] == vulns[i] && front[j] == vulns[j];
      }
      VulnFactorsValues(front);
      var m := VulnFactors(front);
      assert VulnFactors(vulns) == m[VulnKey(id) := sev];
      forall k | 0 <= k < |vulns|
        ensures VulnKey(vulns[k].0) in m[VulnKey(id) := sev]
        ensures m[VulnKey(id) := sev][VulnKey(vulns[k].0)] == AssessVulnSeverity(vulns[k].0, vulns[k].1)
      {
        if k < n {
          assert vulns[k] == front[k];
          assert vulns[k].0 != id;
          if VulnKey(vulns[k].0) == VulnKey(id) {
            VulnKeyInjective(vulns[k].0, id);
          }
        }
      }
    }
  }

  /** Every `vuln_` risk factor key starts with "vuln_". */
  lemma {:induction false} VulnFactorsPrefixed(vulns: seq<(string, string)>)
    ensures forall key :: key in VulnFactors(vulns) ==> StartsWith(key, "vuln_")
  {
    if vulns != [] {
      VulnFactorsPrefixed(vulns[..|vulns| - 1]);
    }
  }

  // ------------------------------------------------------------ compliance

  /** An id that mentions "CRITICAL" is assessed CRITICAL, whatever its
      description says. */
  lemma CriticalInId(id: string, desc: string)
    requires Contains(id, CRITICAL_MARK)
    ensures AssessVulnSeverity(id, desc) == Critical
  {
    ContainsLower(id, CRITICAL_MARK);
    assert Lower(CRITICAL_MARK) == "critical";
    assert id + " " + desc == id + (" " + desc);
    LowerConcat(id, " " + desc);
    ContainsInConcat(Lower(id), Lower(" " + desc), "critical");
    assert "critical" in CRITICAL_KEYWORDS;
  }

  /** A vulnerability flag carries the marker "CRITICAL" exactly when the
      entry was assessed CRITICAL. */
  lemma VulnFlagCritical(id: string, desc: string)
    ensures Contains(VulnFlag(id, AssessVulnSeverity(id, desc)), CRITICAL_MARK)
        <==> AssessVulnSeverity(id, desc) == Critical
  {
    var s := AssessVulnSeverity(id, desc);
    var name := SeverityName(s);
    var flag := VulnFlag(id, s);
    var w := CRITICAL_MARK;
    if s == Critical {
      var prefix := "Vulnerability: " + id + " (";
      assert flag == prefix + w + ")";
      assert flag[|prefix|..|prefix| + |w|] == w;
      ContainsAt(flag, w, |prefix|);
    } else {
      var rest := id + " (" + name + ")";
      assert flag == "Vulnerability:" + [' '] + rest;
      ContainsSplit("Vulnerability:", ' ', rest, w);
      MissingChar("Vulnerability:", w, 0);
      var paren := "(" + name + ")";
      assert rest == id + [' '] + paren;
      ContainsSplit(id, ' ', paren, w);
      if Contains(id, w) {
        CriticalInId(id, desc);
        assert false;
      }
      assert paren == [] + ['('] + (name + ")");
      ContainsSplit([], '(', name + ")", w);
      assert name + ")" == name + [')'] + [];
      ContainsSplit(name, ')', [], w);
      MissingChar(name, w, 0);
    }
  }

  lemma {:induction false} CountCriticalConcat(a: seq<string>, b: seq<string>)
    ensures CountCritical(a + b) == CountCritical(a) + CountCritical(b)
  {
    if a == [] {
      assert a + b == b;
    } else {
      assert (a + b)[1..] == a[1..] + b;
      CountCriticalConcat(a[1..], b);
    }
  }

  /** The vulnerability flags add one compliance issue per CRITICAL entry. */
  lemma {:induction false} VulnFlagsCountCritical(vulns: seq<(string, string)>)
    ensures CountCritical(VulnFlags(vulns)) == NumCritical(vulns)
  {
    if vulns != [] {
      var n := |vulns| - 1;
      var (id, desc) := vulns[n];
      VulnFlagsCountCritical(vulns[..n]);
      CountCriticalConcat(VulnFlags(vulns[..n]), [VulnFlag(id, AssessVulnSeverity(id, desc))]);
      VulnFlagCritical(id, desc);
      assert [VulnFlag(id, AssessVulnSeverity(id, desc))][1..] == [];
    }
  }

  /** A string with no upper-case C carries no "CRITICAL" marker. */
  lemma NoMark(s: string)
    requires forall i :: 0 <= i < |s| ==> s[i] != 'C'
    ensures !Contains(s, CRITICAL_MARK)
  {
    MissingChar(s, CRITICAL_MARK, 0);
  }

  lemma IntListFlagNoC(prefix: string, found: seq<int>)
    requires 'C' !in prefix
    ensures forall i :: 0 <= i < |prefix + IntListRepr(found)| ==> (prefix + IntListRepr(found))[i] != 'C'
  {
    IntListReprChars(found);
    var s := prefix + IntListRepr(found);
    forall i | 0 <= i < |s| ensures s[i] != 'C' {
      if i < |prefix| {
        assert s[i] == prefix[i];
      } else {
        assert s[i] == IntListRepr(found)[i - |prefix|];
      }
    }
  }

  lemma PortCountFlagNoC(count: nat)
    ensures !Contains(PortCountFlag(count), CRITICAL_MARK)
  {
    var d := NatToString(count);
    var s := PortCountFlag(count);
    var head := "Excessive port exposure: ";
    assert s == head + d + " ports";
    forall i | 0 <= i < |s| ensures s[i] != 'C' {
      if i < |head| {
        assert s[i] == head[i];
      } else if i < |head| + |d| {
        assert s[i] == d[i - |head|];
      } else {
        assert s[i] == " ports"[i - |head| - |d|];
      }
    }
    NoMark(s);
  }

  lemma DockerFlagsCountCritical(p: seq<int>)
    ensures CountCritical(DockerFlags(p)) == if DOCKER_PORT in p then 1 else 0
  {
    if DOCKER_PORT in p {
      DockerFlagMarked();
      assert [DOCKER_FLAG][1..] == [];
    } else if DOCKER_TLS_PORT in p {
      NoMark(DOCKER_TLS_FLAG);
      assert [DOCKER_TLS_FLAG][1..] == [];
    }
  }

  lemma DockerFlagMarked()
    ensures Contains(DOCKER_FLAG, CRITICAL_MARK)
  {
    ContainsPrefix(CRITICAL_MARK, ": Docker socket exposed (unencrypted)");
  }

  lemma AltSshFlagsCountCritical(p: seq<int>)
    ensures CountCritical(AltSshFlags(p)) == 0
  {
    IntListFlagNoC("Alternative SSH ports detected: ", AltSshPorts(p));
    NoMark("Alternative SSH ports detected: " + IntListRepr(AltSshPorts(p)));
  }

  /** The number of flags of the early checks that count as compliance
      issues: only the unencrypted Docker socket. */
  lemma EarlyFlagsCountCritical(scan: ScanRecord)
    ensures CountCritical(EarlyFlags(scan)) == if DOCKER_PORT in scan.openPorts then 1 else 0
  {
    var p := scan.openPorts;
    DockerFlagsCountCritical(p);
    NoMark(SSH_FLAG);
    NoMark(TLS_FLAG);
    AltSshFlagsCountCritical(p);
    var d, s, a, t := DockerFlags(p), SshFlags(p), AltSshFlags(p), TlsFlags(scan.tls);
    assert [SSH_FLAG][1..] == [] && [TLS_FLAG][1..] == [];
    assert CountCritical(s) == 0 && CountCritical(t) == 0;
    CountCriticalConcat(d, s);
    CountCriticalConcat(d + s, a);
    CountCriticalConcat(d + s + a, t);
  }

  lemma DatabaseFlagsCountCritical(p: seq<int>)
    ensures CountCritical(DatabaseFlags(p)) == if DatabasePorts(p) != [] then 1 else 0
  {
    if DatabasePorts(p) != [] {
      var f := DatabaseFlag(DatabasePorts(p));
      ContainsPrefix(CRITICAL_MARK, ": Database ports exposed: " + IntListRepr(DatabasePorts(p)));
      assert f == CRITICAL_MARK + (": Database ports exposed: " + IntListRepr(DatabasePorts(p)));
      assert [f][1..] == [];
    }
  }

  lemma PortCountFlagsCountCritical(p: seq<int>)
    ensures CountCritical(PortCountFlags(p)) == 0
  {
    if |p| > PORT_LIMIT {
      PortCountFlagNoC(|p|);
      assert [PortCountFlag(|p|)][1..] == [];
    }
  }

  /** The flags marked CRITICAL: the unencrypted Docker socket, the
      CRITICAL vulnerabilities and the database exposure. */
  lemma RuleFlagsCountCritical(scan: ScanRecord)
    ensures CountCritical(RuleFlags(scan))
            == (if DOCKER_PORT in scan.openPorts then 1 else 0) + NumCritical(scan.vulns)
               + (if DatabasePorts(scan.openPorts) != [] then 1 else 0)
  {
    var p := scan.openPorts;
    EarlyFlagsCountCritical(scan);
    VulnFlagsCountCritical(scan.vulns);
    DatabaseFlagsCountCritical(p);
    PortCountFlagsCountCritical(p);
    var e, v, d, c := EarlyFlags(scan), VulnFlags(scan.vulns), DatabaseFlags(p), PortCountFlags(p);
    assert RuleFlags(scan) == e + v + d + c;
    CountCriticalConcat(e, v);
    CountCriticalConcat(e + v, d);
    CountCriticalConcat(e + v + d, c);
  }

  /** `compliance_score`: 100 less 25 per flag marked CRITICAL, floored at 0.
      Those flags are the unencrypted Docker socket, the CRITICAL
      vulnerabilities and the database exposure; the TLS flag, although it
      speaks of "critical issues", is not marked and does not count. */
  lemma ComplianceCounts(version: string, scan: ScanRecord,
                         contentHash: ScanRecord -> string, timestamp: string)
    ensures var issues := (if DOCKER_PORT in scan.openPorts then 1 else 0) + NumCritical(scan.vulns)
                          + (if DatabasePorts(scan.openPorts) != [] then 1 else 0);
            BaseReport(version, scan, contentHash, timestamp).metrics.complianceScore
            == if 100 - 25 * issues < 0 then 0 else 100 - 25 * issues
  {
    RuleFlagsCountCritical(scan);
    assert BaseReport(version, scan, contentHash, timestamp).metrics.complianceScore
        == Compliance(RuleFlags(scan));
  }

  /** A list has no more CRITICAL flags than flags, and none exactly when
      no flag holds the marker. */
  lemma {:induction false} CountCriticalZero(flags: seq<string>)
    ensures CountCritical(flags) <= |flags|
    ensures CountCritical(flags) == 0 <==> forall i :: 0 <= i < |flags| ==> !Contains(flags[i], CRITICAL_MARK)
  {
    if flags != [] {
      CountCriticalZero(flags[1..]);
      assert forall i :: 0 < i < |flags| ==> flags[i] == flags[1..][i - 1];
    }
  }

  /** The compliance score is a multiple of 25 in 0..100; it is 100 exactly
      when no flag is marked CRITICAL, and 0 from four such flags on. */
  lemma ComplianceRange(flags: seq<string>)
    ensures 0 <= Compliance(flags) <= 100 && Compliance(flags) % 25 == 0
    ensures Compliance(flags) == 100 <==> forall i :: 0 <= i < |flags| ==> !Contains(flags[i], CRITICAL_MARK)
    ensures Compliance(flags) == 0 <==> CountCritical(flags) >= 4
  {
    CountCriticalZero(flags);
    var n, c := CountCritical(flags), Compliance(flags);
    assert c == if 100 - (n as int) * 25 < 0 then 0 else 100 - (n as int) * 25;
    if n < 4 {
      assert n == 0 || n == 1 || n == 2 || n == 3;
      assert c == 100 - 25 * n;
    } else {
      assert (n as int) * 25 >= 100;
      assert c == 0;
    }
  }

  // ------------------------------------------------- flags, factors, grade

  lemma VulnFlagStarts(id: string, s: Severity)
    ensures StartsWith(VulnFlag(id, s), "Vulnerability: ")
  {
    var rest := id + " (" + SeverityName(s) + ")";
    assert VulnFlag(id, s) == "Vulnerability: " + rest;
  }

  lemma {:induction false} VulnFlagsHead(vulns: seq<(string, string)>)
    ensures forall f :: f in VulnFlags(vulns) ==> StartsWith(f, "Vulnerability: ")
  {
    if vulns != [] {
      var front, v := vulns[..|vulns| - 1], vulns[|vulns| - 1];
      VulnFlagsHead(front);
      VulnFlagStarts(v.0, AssessVulnSeverity(v.0, v.1));
    }
  }

  /** The TLS flag is raised exactly when the TLS check fails: no other
      rule produces that text. */
  lemma TlsFlagIffFails(scan: ScanRecord)
    ensures TLS_FLAG in RuleFlags(scan) <==> TlsFails(scan.tls)
  {
    var p := scan.openPorts;
    if !TlsFails(scan.tls) {
      VulnFlagsHead(scan.vulns);
      assert TLS_FLAG !in DockerFlags(p) + SshFlags(p);
      assert TLS_FLAG !in AltSshFlags(p) by {
        if AltSshPorts(p) != [] {
          assert AltSshFlag(AltSshPorts(p))[0] == 'A';
        }
      }
      assert TLS_FLAG !in VulnFlags(scan.vulns) by {
        assert TLS_FLAG[0] != "Vulnerability: "[0];
      }
      assert TLS_FLAG !in DatabaseFlags(p) by {
        if DatabasePorts(p) != [] {
          assert DatabaseFlag(DatabasePorts(p))[0] == 'C';
        }
      }
      assert TLS_FLAG !in PortCountFlags(p) by {
        if |p| > PORT_LIMIT {
          assert PortCountFlag(|p|)[0] == 'E';
        }
      }
    }
  }

  /** Every flag of the list is non-empty and starts with a character of `cs`. */
  predicate FlagsStartIn(flags: seq<string>, cs: string) {
    forall f :: f in flags ==> |f| > 0 && f[0] in cs
  }

  lemma FlagsStartInConcat(a: seq<string>, b: seq<string>, cs: string)
    requires FlagsStartIn(a, cs) && FlagsStartIn(b, cs)
    ensures FlagsStartIn(a + b, cs)
  {
  }

  /** A flag list that starts within `cs` starts within any wider `ds`. */
  lemma FlagsStartInWiden(flags: seq<string>, cs: string, ds: string)
    requires FlagsStartIn(flags, cs)
    requires forall c :: c in cs ==> c in ds
    ensures FlagsStartIn(flags, ds)
  {
  }

  /** The flags of the checks before the vulnerability loop start with C
      (Docker 2375), W (Docker 2376), S (SSH), A (alternate SSH) or T (TLS). */
  lemma EarlyFlagsHead(scan: ScanRecord)
    ensures FlagsStartIn(EarlyFlags(scan), "CWSAT")
  {
    var p, cs := scan.openPorts, "CWSAT";
    assert DOCKER_FLAG[0] == "CRITICAL"[0];
    assert DOCKER_TLS_FLAG[0] == "WARNING"[0];
    assert FlagsStartIn(DockerFlags(p), cs);
    assert SSH_FLAG[0] in "CWSAT";
    assert FlagsStartIn(SshFlags(p), cs);
    assert FlagsStartIn(AltSshFlags(p), cs) by {
      if AltSshPorts(p) != [] {
        assert AltSshFlag(AltSshPorts(p))[0] == 'A';
      }
    }
    assert TLS_FLAG[0] in "CWSAT";
    assert FlagsStartIn(TlsFlags(scan.tls), cs);
    FlagsStartInConcat(DockerFlags(p), SshFlags(p), cs);
    FlagsStartInConcat(DockerFlags(p) + SshFlags(p), AltSshFlags(p), cs);
    FlagsStartInConcat(DockerFlags(p) + SshFlags(p) + AltSshFlags(p), TlsFlags(scan.tls), cs);
  }

  /** The database flag starts with C and the port-count flag with E. */
  lemma LateFlagsHead(p: seq<int>)
    ensures FlagsStartIn(DatabaseFlags(p), "C") && FlagsStartIn(PortCountFlags(p), "E")
  {
    if DatabasePorts(p) != [] {
      assert DatabaseFlag(DatabasePorts(p))[0] == "C"[0];
    }
    if |p| > PORT_LIMIT {
      assert PortCountFlag(|p|)[0] == "E"[0];
    }
  }

  /** Every base flag starts with a capital letter other than M. */
  lemma RuleFlagsHead(scan: ScanRecord)
    ensures forall f :: f in RuleFlags(scan) ==> |f| > 0 && f[0] in "ACESTVW"
  {
    var p, cs := scan.openPorts, "ACESTVW";
    var e, v, d, c := EarlyFlags(scan), VulnFlags(scan.vulns), DatabaseFlags(p), PortCountFlags(p);
    EarlyFlagsHead(scan);
    FlagsStartInWiden(e, "CWSAT", cs);
    LateFlagsHead(p);
    FlagsStartInWiden(d, "C", cs);
    FlagsStartInWiden(c, "E", cs);
    VulnFlagsHead(scan.vulns);
    assert FlagsStartIn(v, cs) by {
      forall f | f in v ensures |f| > 0 && f[0] in cs {
        assert StartsWith(f, "Vulnerability: ");
        assert f[0] == 'V';
      }
    }
    FlagsStartInConcat(e, v, cs);
    FlagsStartInConcat(e + v, d, cs);
    FlagsStartInConcat(e + v + d, c, cs);
    assert RuleFlags(scan) == e + v + d + c;
  }

  /** No vulnerability key collides with a fixed risk factor key. */
  lemma FixedKeysNotVuln(vulns: seq<(string, string)>)
    ensures var v := VulnFactors(vulns);
            "docker" !in v && "ssh" !in v && "tls" !in v && "database" !in v
  {
    VulnFactorsPrefixed(vulns);
    assert "docker"[0] != 'v' && "ssh"[0] != 'v' && "tls"[0] != 'v' && "database"[0] != 'v';
  }

  /** Which rule a fixed risk factor key comes from. */
  lemma FixedKeyFromRule(scan: ScanRecord, key: string)
    requires key in ["docker", "ssh", "tls", "database"]
    ensures var p, rf := scan.openPorts, RiskFactors(scan);
            var rule := if key == "docker" then DockerFactor(p) else if key == "ssh" then SshFactor(p)
                        else if key == "tls" then TlsFactor(scan.tls) else DatabaseFactor(p);
            && (key in rf <==> key in rule)
            && (key in rf ==> rf[key] == rule[key])
  {
    var p := scan.openPorts;
    FixedKeysNotVuln(scan.vulns);
    var d, s, t := DockerFactor(p), SshFactor(p), TlsFactor(scan.tls);
    assert "docker" !in s && "docker" !in t && "ssh" !in d && "ssh" !in t;
    assert "tls" !in d && "tls" !in s && "database" !in d + s + t;
    assert "docker" !in DatabaseFactor(p) && "ssh" !in DatabaseFactor(p) && "tls" !in DatabaseFactor(p);
  }

  /** The risk factors the port rules set: "docker", "ssh" and "database". */
  lemma PortRiskFactors(scan: ScanRecord)
    ensures var p, rf := scan.openPorts, RiskFactors(scan);
            && ("docker" in rf <==> DOCKER_PORT in p || DOCKER_TLS_PORT in p)
            && ("docker" in rf ==> rf["docker"] == if DOCKER_PORT in p then Critical else Medium)
            && ("ssh" in rf <==> SSH_PORT in p)
            && ("ssh" in rf ==> rf["ssh"] == Medium)
            && ("database" in rf <==> DatabasePorts(p) != [])
            && ("database" in rf ==> rf["database"] == Critical)
  {
    FixedKeyFromRule(scan, "docker");
    FixedKeyFromRule(scan, "ssh");
    FixedKeyFromRule(scan, "database");
  }

  /** The only risk factor keys are "docker", "ssh", "tls", "database" and
      the `vuln_` keys. */
  lemma RiskFactorVocabulary(scan: ScanRecord)
    ensures forall k :: k in RiskFactors(scan) ==>
              k in {"docker", "ssh", "tls", "database"} || StartsWith(k, "vuln_")
  {
    VulnFactorsPrefixed(scan.vulns);
  }

  /** The risk factor the TLS rule sets. */
  lemma TlsRiskFactor(scan: ScanRecord)
    ensures var rf := RiskFactors(scan);
            && ("tls" in rf <==> TlsFails(scan.tls))
            && ("tls" in rf ==> rf["tls"] == Critical)
  {
    FixedKeysNotVuln(scan.vulns);
  }

  /** The security grade read off the report: F exactly when the
      unencrypted Docker socket or a database port was found, D exactly when
      otherwise the TLS check failed, A+ in every other case. A TLS grade is
      recorded exactly when the TLS flag is absent. */
  lemma GradeFollowsRiskFactors(version: string, scan: ScanRecord,
                                contentHash: ScanRecord -> string, timestamp: string)
    ensures var r := BaseReport(version, scan, contentHash, timestamp);
            var rf, g := r.metrics.riskFactors, r.metrics.securityGrade;
            && (g == F <==> ("docker" in rf && rf["docker"] == Critical) || "database" in rf)
            && (g == D <==> g != F && "tls" in rf)
            && (g == APlus <==> g != F && g != D)
            && (r.metrics.tlsGrade != None <==> TLS_FLAG !in r.flags)
  {
    PortRiskFactors(scan);
    TlsRiskFactor(scan);
    TlsFlagIffFails(scan);
  }

  // ---------------------------------------------------------- the score

  /** The full score of 100 is reached exactly when no rule raises a flag,
      and then the grade is A+, the risk MINIMAL and compliance 100. */
  lemma PerfectScoreIffNoFlags(version: string, scan: ScanRecord,
                               contentHash: ScanRecord -> string, timestamp: string)
    ensures var r := BaseReport(version, scan, contentHash, timestamp);
            && (r.score == FULL_SCORE <==> r.flags == [])
            && (r.flags == [] ==>
                  r.metrics.securityGrade == APlus && r.riskLevel == MinimalRisk
                  && r.metrics.complianceScore == 100)
  {
    VulnPenaltySumBounds(scan.vulns);
    VulnFlagsShape(scan.vulns);
    var p := scan.openPorts;
    if RuleFlags(scan) == [] {
      assert DockerFlags(p) == [] && SshFlags(p) == [] && AltSshFlags(p) == [];
      assert TlsFlags(scan.tls) == [] && VulnFlags(scan.vulns) == [];
      assert DatabaseFlags(p) == [] && PortCountFlags(p) == [];
    }
  }

  /** `pgdn_risk_level` of a base report. The grade is never A or B there, so
      MINIMAL and LOW need A+. */
  lemma BaseRiskLevels(version: string, scan: ScanRecord,
                       contentHash: ScanRecord -> string, timestamp: string)
    ensures var r := BaseReport(version, scan, contentHash, timestamp);
            var s, g := r.score, r.metrics.securityGrade;
            && (r.riskLevel == MinimalRisk <==> s >= 950 && g == APlus)
            && (r.riskLevel == LowRisk <==> 850 <= s < 950 && g == APlus)
            && (r.riskLevel == ModerateRisk <==> 700 <= s && !(850 <= s && g == APlus))
            && (r.riskLevel == HighRisk <==> 500 <= s < 700)
            && (r.riskLevel == CriticalRisk <==> s < 500)
  {
  }

  /** A lower score never gives a lower risk, whatever the grade. */
  function RiskRank(r: RiskLevel): nat {
    match r
    case MinimalRisk => 0
    case LowRisk => 1
    case ModerateRisk => 2
    case HighRisk => 3
    case CriticalRisk => 4
  }

  lemma PgdnRiskMonotone(s1: int, s2: int, g: Grade)
    requires s1 <= s2
    ensures RiskRank(PgdnRisk(s2, g)) <= RiskRank(PgdnRisk(s1, g))
  {
  }

  lemma {:induction false} FilterAppend(ports: seq<int>, x: int, allowed: seq<int>)
    ensures Filter(ports + [x], allowed) == Filter(ports, allowed) + (if x in allowed then [x] else [])
  {
    var tail := if x in allowed then [x] else [];
    if ports == [] {
      assert [] + [x] == [x];
      assert [x][1..] == [];
      assert Filter([x], allowed) == tail + Filter([], allowed);
    } else {
      var xs := ports + [x];
      var rest := ports[1..];
      assert xs[0] == ports[0];
      assert xs[1..] == rest + [x];
      var head := if ports[0] in allowed then [ports[0]] else [];
      assert Filter(xs, allowed) == head + Filter(rest + [x], allowed);
      assert Filter(ports, allowed) == head + Filter(rest, allowed);
      FilterAppend(rest, x, allowed);
      assert head + (Filter(rest, allowed) + tail) == (head + Filter(rest, allowed)) + tail;
    }
  }

  /** Adding a port that is neither an alternate SSH port nor a database
      port leaves those two rules as they were. */
  lemma AddOtherPort(ports: seq<int>, x: int)
    requires x !in ALT_SSH_PORTS && x !in DATABASE_PORTS
    ensures AltSshPorts(ports + [x]) == AltSshPorts(ports)
    ensures DatabasePorts(ports + [x]) == DatabasePorts(ports)
  {
    FilterAppend(ports, x, ALT_SSH_PORTS);
    FilterAppend(ports, x, DATABASE_PORTS);
    assert Filter(ports, ALT_SSH_PORTS) + [] == Filter(ports, ALT_SSH_PORTS);
    assert Filter(ports, DATABASE_PORTS) + [] == Filter(ports, DATABASE_PORTS);
  }

  lemma PrependAssoc<T>(x: T, a: seq<T>, b: seq<T>, c: seq<T>)
    ensures ([x] + a) + b + c + [] == [x] + (a + b + c + [])
  {
    assert ([x] + a) + b + c + [] == [x] + (a + b + c);
  }

  /** Exposing the unencrypted Docker socket on a host that showed neither
      Docker port costs 35 points, plus 2 when the port list grows past
      five, and forces grade F. */
  lemma DockerSocketCost(scan: ScanRecord)
    requires DOCKER_PORT !in scan.openPorts && DOCKER_TLS_PORT !in scan.openPorts
    ensures var more := scan.(openPorts := scan.openPorts + [DOCKER_PORT]);
            && TotalPenalty(more) == TotalPenalty(scan) + WEIGHTS.dockerExposure * TENTHS
                                     + (if |scan.openPorts| >= PORT_LIMIT then WEIGHTS.openPorts * TENTHS else 0)
            && SecurityGrade(more) == F
  {
    AddOtherPort(scan.openPorts, DOCKER_PORT);
  }

  /** Adding the unencrypted Docker socket changes the Docker rule's flag
      and leaves the flags of the SSH rules as they were. */
  lemma DockerSocketRuleFlags(p: seq<int>)
    requires DOCKER_PORT !in p && DOCKER_TLS_PORT !in p
    ensures var q := p + [DOCKER_PORT];
            && DockerFlags(p) == [] && DockerFlags(q) == [DOCKER_FLAG]
            && SshFlags(q) == SshFlags(p) && AltSshFlags(q) == AltSshFlags(p)
  {
    var q := p + [DOCKER_PORT];
    AddOtherPort(p, DOCKER_PORT);
    assert DOCKER_PORT in q;
    assert SSH_PORT in q <==> SSH_PORT in p;
  }

  lemma DockerSocketEarlyFlags(scan: ScanRecord)
    requires DOCKER_PORT !in scan.openPorts && DOCKER_TLS_PORT !in scan.openPorts
    ensures EarlyFlags(scan.(openPorts := scan.openPorts + [DOCKER_PORT])) == [DOCKER_FLAG] + EarlyFlags(scan)
  {
    var p := scan.openPorts;
    DockerSocketRuleFlags(p);
    var s, a, t := SshFlags(p), AltSshFlags(p), TlsFlags(scan.tls);
    assert EarlyFlags(scan.(openPorts := p + [DOCKER_PORT])) == [DOCKER_FLAG] + s + a + t;
    assert EarlyFlags(scan) == [] + s + a + t;
    assert [DOCKER_FLAG] + s + a + t == [DOCKER_FLAG] + ([] + s + a + t);
  }

  /** On a host with fewer than five ports, the Docker flag comes first and
      every other flag stays as it was. */
  lemma DockerSocketFlags(scan: ScanRecord)
    requires DOCKER_PORT !in scan.openPorts && DOCKER_TLS_PORT !in scan.openPorts
    requires |scan.openPorts| < PORT_LIMIT
    ensures RuleFlags(scan.(openPorts := scan.openPorts + [DOCKER_PORT])) == [DOCKER_FLAG] + RuleFlags(scan)
  {
    var p := scan.openPorts;
    var more := scan.(openPorts := p + [DOCKER_PORT]);
    AddOtherPort(p, DOCKER_PORT);
    DockerSocketEarlyFlags(scan);
    var e, v, d := EarlyFlags(scan), VulnFlags(scan.vulns), DatabaseFlags(p);
    assert PortCountFlags(p + [DOCKER_PORT]) == [] && PortCountFlags(p) == [];
    assert DatabaseFlags(p + [DOCKER_PORT]) == d;
    PrependAssoc(DOCKER_FLAG, e, v, d);
  }

  // ------------------------------------------------------------ severity

  /** The assessment ignores the case of the id and of the description. */
  lemma SeverityIgnoresCase(id: string, desc: string)
    ensures AssessVulnSeverity(Lower(id), Lower(desc)) == AssessVulnSeverity(id, desc)
  {
    var li, ld := Lower(id), Lower(desc);
    assert Lower(" ") == " ";
    LowerConcat(id, " ");
    LowerConcat(id + " ", desc);
    assert VulnText(id, desc) == li + " " + ld;
    LowerConcat(li, " ");
    LowerConcat(li + " ", ld);
    LowerLower(id);
    LowerLower(desc);
    assert VulnText(li, ld) == li + " " + ld;
  }

  /** The keyword lists are tried in order: the first list with a keyword in
      the text decides, and a text with no keyword of any list is LOW. */
  lemma TextSeverityCascade(text: string)
    ensures TextSeverity(text) == Critical <==> exists k :: k in CRITICAL_KEYWORDS && Contains(text, k)
    ensures TextSeverity(text) == High <==>
              (forall k :: k in CRITICAL_KEYWORDS ==> !Contains(text, k))
              && exists k :: k in HIGH_KEYWORDS && Contains(text, k)
    ensures TextSeverity(text) == Medium <==>
              (forall k :: k in CRITICAL_KEYWORDS + HIGH_KEYWORDS ==> !Contains(text, k))
              && exists k :: k in MEDIUM_KEYWORDS && Contains(text, k)
    ensures TextSeverity(text) == Low <==>
              forall k :: k in CRITICAL_KEYWORDS + HIGH_KEYWORDS + MEDIUM_KEYWORDS ==> !Contains(text, k)
  {
    ContainsAnyMeans(text, CRITICAL_KEYWORDS);
    ContainsAnyMeans(text, HIGH_KEYWORDS);
    ContainsAnyMeans(text, MEDIUM_KEYWORDS);
  }

  /** A text that holds "xss" and no CRITICAL or HIGH keyword is MEDIUM. */
  lemma XssTextIsMedium(text: string)
    requires Contains(text, "xss")
    requires forall k :: k in CRITICAL_KEYWORDS + HIGH_KEYWORDS ==> !Contains(text, k)
    ensures TextSeverity(text) == Medium
  {
    TextSeverityCascade(text);
    assert "xss" in MEDIUM_KEYWORDS;
  }

  /** "x-1 xss" holds no CRITICAL or HIGH keyword: each keyword has a
      letter the text lacks. */
  lemma XssTextKeywords(text: string)
    requires text == "x-1 xss"
    ensures forall k :: k in CRITICAL_KEYWORDS + HIGH_KEYWORDS ==> !Contains(text, k)
  {
    MissingChar(text, "critical", 0);
    MissingChar(text, "rce", 0);
    MissingChar(text, "remote code execution", 0);
    MissingChar(text, "unauthenticated", 0);
    MissingChar(text, "high", 0);
    MissingChar(text, "privilege escalation", 0);
    MissingChar(text, "buffer overflow", 0);
  }

  /** "XSS" alone is MEDIUM. */
  lemma XssIsMedium()
    ensures AssessVulnSeverity("X-1", "XSS") == Medium
  {
    var text := VulnText("X-1", "XSS");
    LowerPointwise("X-1" + " " + "XSS");
    assert text == "x-1 xss";
    assert text[4..7] == "xss";
    ContainsAt(text, "xss", 4);
    XssTextKeywords(text);
    XssTextIsMedium(text);
  }

  /** A CRITICAL keyword written in any case anywhere in `id + " " + desc`
      makes the entry CRITICAL. */
  lemma CriticalKeywordIn(id: string, desc: string, w: string, i: nat)
    requires i + |w| <= |id + " " + desc| && (id + " " + desc)[i..i + |w|] == w
    requires Lower(w) in CRITICAL_KEYWORDS
    ensures AssessVulnSeverity(id, desc) == Critical
  {
    ContainsAt(id + " " + desc, w, i);
    ContainsLower(id + " " + desc, w);
    ContainsAnyMeans(VulnText(id, desc), CRITICAL_KEYWORDS);
  }

  lemma RceIsCritical()
    ensures AssessVulnSeverity("CVE-1", "RCE in parser") == Critical
  {
    assert ("CVE-1" + " " + "RCE in parser")[6..9] == "RCE";
    assert Lower("RCE") == "rce";
    CriticalKeywordIn("CVE-1", "RCE in parser", "RCE", 6);
  }

  /** Keywords are matched as substrings, not as words: "Resource" contains
      "rce", so a resource-exhaustion entry is CRITICAL. */
  lemma ResourceExhaustionIsCritical()
    ensures AssessVulnSeverity("CVE-2", "Resource exhaustion") == Critical
  {
    assert ("CVE-2" + " " + "Resource exhaustion")[11..14] == "rce";
    assert Lower("rce") == "rce";
    CriticalKeywordIn("CVE-2", "Resource exhaustion", "rce", 11);
  }

  // ----------------------------------------------------------- scenarios

  /** An empty record fails only the TLS check: 72 points, grade D,
      MODERATE risk. */
  lemma EmptyRecord(contentHash: ScanRecord -> string, timestamp: string)
    ensures var r := BaseReport(VERSION, ScanRecord(None, [], None, [], None), contentHash, timestamp);
            && r.ip == "unknown" && r.score == 720 && r.flags == [TLS_FLAG]
            && r.metrics.securityGrade == D && r.riskLevel == ModerateRisk
            && r.metrics.complianceScore == 100 && r.metrics.tlsGrade == None
            && r.metrics.riskFactors == map["tls" := Critical]
            && r.dockerExposure == DockerExposure(false)
  {
    var scan := ScanRecord(None, [], None, [], None);
    assert RuleFlags(scan) == [TLS_FLAG];
    ComplianceCounts(VERSION, scan, contentHash, timestamp);
  }

  /** `tls_grade`: B iff the lower-cased issuer names Let's Encrypt;
      otherwise A iff it names a premium issuer; otherwise C. */
  lemma IssuerGradeCases(issuer: string)
    ensures IssuerGrade(issuer) == B <==> Contains(Lower(issuer), "let's encrypt")
    ensures IssuerGrade(issuer) == A <==>
              !Contains(Lower(issuer), "let's encrypt")
              && exists k :: k in PREMIUM_ISSUERS && Contains(Lower(issuer), k)
    ensures IssuerGrade(issuer) in {A, B, C}
  {
    ContainsAnyMeans(Lower(issuer), PREMIUM_ISSUERS);
  }

  /** An issuer naming DigiCert is graded A unless it also names
      Let's Encrypt; without an apostrophe it cannot. */
  lemma DigiCertIsPremium(issuer: string)
    requires Contains(issuer, "DigiCert") && '\'' !in issuer
    ensures IssuerGrade(issuer) == A
  {
    var name := Lower(issuer);
    LowerKeepsOut(issuer, '\'');
    MissingChar(name, "let's encrypt", 3);
    ContainsLower(issuer, "DigiCert");
    LowerPointwise("DigiCert");
    assert Lower("DigiCert") == "digicert";
    assert PREMIUM_ISSUERS[0] == "digicert";
  }

  /** A host that exposes no port any rule looks at, has no known
      vulnerabilities and presents an unexpired-looking DigiCert certificate
      gets the full score, TLS grade A and MINIMAL risk. */
  lemma PremiumHttpsHost(version: string, scan: ScanRecord, issuer: string, expiry: string,
                         contentHash: ScanRecord -> string, timestamp: string)
    requires forall i :: 0 <= i < |scan.openPorts| ==>
               scan.openPorts[i] !in [DOCKER_PORT, DOCKER_TLS_PORT, SSH_PORT] + ALT_SSH_PORTS + DATABASE_PORTS
    requires |scan.openPorts| <= PORT_LIMIT && scan.vulns == []
    requires scan.tls == Some(Tls(Some(issuer), Some(expiry))) && expiry != ""
    requires Contains(issuer, "DigiCert") && '\'' !in issuer
    ensures var r := BaseReport(version, scan, contentHash, timestamp);
            && r.score == FULL_SCORE && r.flags == []
            && r.metrics.securityGrade == APlus && r.metrics.tlsGrade == Some(A)
            && r.riskLevel == MinimalRisk && r.metrics.complianceScore == 100
  {
    PremiumHttpsRules(scan, issuer, expiry);
    PerfectScoreIffNoFlags(version, scan, contentHash, timestamp);
  }

  lemma PremiumHttpsRules(scan: ScanRecord, issuer: string, expiry: string)
    requires forall i :: 0 <= i < |scan.openPorts| ==>
               scan.openPorts[i] !in [DOCKER_PORT, DOCKER_TLS_PORT, SSH_PORT] + ALT_SSH_PORTS + DATABASE_PORTS
    requires |scan.openPorts| <= PORT_LIMIT && scan.vulns == []
    requires scan.tls == Some(Tls(Some(issuer), Some(expiry))) && expiry != ""
    requires Contains(issuer, "DigiCert") && '\'' !in issuer
    ensures RuleFlags(scan) == [] && TlsGradeOf(scan.tls) == Some(A)
  {
    var p := scan.openPorts;
    FilterDisjoint(p, ALT_SSH_PORTS);
    FilterDisjoint(p, DATABASE_PORTS);
    MissingChar("Self-signed", "DigiCert", 0);
    DigiCertIsPremium(issuer);
    assert DockerFlags(p) == [] && SshFlags(p) == [];
  }

  lemma {:induction false} FilterDisjoint(ports: seq<int>, allowed: seq<int>)
    requires forall i :: 0 <= i < |ports| ==> ports[i] !in allowed
    ensures Filter(ports, allowed) == []
  {
    if ports != [] {
      FilterDisjoint(ports[1..], allowed);
    }
  }

  /** The unencrypted Docker socket, SSH, a database port and a failed TLS
      check together cost 105 points, so whatever else the host shows its
      score is 0, its grade F, its risk CRITICAL and its compliance at most
      50. */
  lemma ExposedHost(version: string, scan: ScanRecord,
                    contentHash: ScanRecord -> string, timestamp: string)
    requires DOCKER_PORT in scan.openPorts && SSH_PORT in scan.openPorts
    requires DatabasePorts(scan.openPorts) != [] && TlsFails(scan.tls)
    ensures var r := BaseReport(version, scan, contentHash, timestamp);
            && r.score == 0 && r.metrics.securityGrade == F && r.riskLevel == CriticalRisk
            && r.metrics.complianceScore <= 50
  {
    VulnPenaltySumBounds(scan.vulns);
    ComplianceCounts(version, scan, contentHash, timestamp);
  }

  /** Only the unencrypted Docker socket open, no TLS and no
      vulnerabilities: 37 points, the Docker and TLS flags, grade F,
      CRITICAL risk and compliance 75. */
  lemma DockerOnlyHost(version: string, scan: ScanRecord,
                       contentHash: ScanRecord -> string, timestamp: string)
    requires scan.openPorts == [DOCKER_PORT] && scan.tls == None && scan.vulns == []
    ensures var r := BaseReport(version, scan, contentHash, timestamp);
            && r.flags == [DOCKER_FLAG, TLS_FLAG] && r.score == 370
            && r.metrics.securityGrade == F && r.riskLevel == CriticalRisk
            && r.metrics.complianceScore == 75
  {
    DockerOnlyRules(scan);
    ComplianceCounts(version, scan, contentHash, timestamp);
  }

  /** The flags such a host raises: Docker 2375, then the TLS check. */
  lemma DockerOnlyRules(scan: ScanRecord)
    requires scan.openPorts == [DOCKER_PORT] && scan.tls == None && scan.vulns == []
    ensures RuleFlags(scan) == [DOCKER_FLAG, TLS_FLAG]
    ensures TotalPenalty(scan) == 630 && SecurityGrade(scan) == F
  {
    var p := scan.openPorts;
    FilterDisjoint(p, ALT_SSH_PORTS);
    FilterDisjoint(p, DATABASE_PORTS);
    DockerOnlyPenalty(scan);
    assert DockerFlags(p) == [DOCKER_FLAG] && SshFlags(p) == [] && AltSshFlags(p) == [];
    assert TlsFlags(scan.tls) == [TLS_FLAG] && DatabaseFlags(p) == [] && PortCountFlags(p) == [];
  }

  /** What such a host pays: 35 for the Docker socket and 28 for TLS. */
  lemma DockerOnlyPenalty(scan: ScanRecord)
    requires scan.openPorts == [DOCKER_PORT] && scan.tls == None && scan.vulns == []
    requires AltSshPorts(scan.openPorts) == [] && DatabasePorts(scan.openPorts) == []
    ensures TotalPenalty(scan) == 630
  {
    var p := scan.openPorts;
    assert DockerPenalty(p) == 350 && SshPenalty(p) == 0 && AltSshPenalty(p) == 0;
    assert TlsPenalty(scan.tls) == 280 && PortCountPenalty(p) == 0;
  }
}
