/**
 * `analyze_logs` end to end: the aggregation loop followed by the report,
 * and what the reported lines say about the records of the file.
 */
module Analysis {
  import opened Wrappers
  import opened Analyzer
  import opened AnalyzerFacts
  import opened Report

  /**
   * `analyze_logs(log_file)` on the lines of the file: the report of the
   * valid records, or the uncaught error of the first line that raises one.
   */
  method AnalyzeLogs(lines: seq<Line>) returns (r: Result<Report, Fatal>)
    ensures r.Success? <==> NoAbort(lines)
    ensures r.Success? ==> WellFormed(Accumulate(ValidRecords(lines))) &&
                           r.value == BuildReport(Accumulate(ValidRecords(lines)))
    ensures r.Failure? ==> exists i :: 0 <= i < |lines| && lines[i] == Aborts(r.error) && NoAbort(lines[..i])
  {
    var aggregates := Aggregate(lines);
    IngestOutcome(lines);
    match aggregates
    case Failure(e) =>
      IngestFailsAtFirstAbort(lines);
      r := Failure(e);
    case Success(st) =>
      AccumulateWellFormed(ValidRecords(lines));
      r := Success(BuildReport(st));
  }

  /**
   * Each line of section 1 reports, for its IP, the number of records, the
   * time from its first to its last record in file order, and the numbers of
   * distinct ports and distinct stripped payloads among them.
   */
  lemma IpLinesDescribeRecords(recs: seq<Record>)
    ensures WellFormed(Accumulate(recs))
    ensures var lines := IpLines(Accumulate(recs));
            forall i :: 0 <= i < |lines| ==>
              var mine := Select(recs, ByIp(lines[i].ip));
              && mine != []
              && lines[i].attempts == |mine|
              && lines[i].duration == mine[|mine| - 1].timestamp - mine[0].timestamp
              && lines[i].portCount == |set r | r in mine :: r.port|
              && lines[i].payloadCount == |set r | r in mine :: Payload(r)|
  {
    var st := Accumulate(recs);
    AccumulateWellFormed(recs);
    IpRanking(st);
    var lines := IpLines(st);
    forall i | 0 <= i < |lines| ensures Select(recs, ByIp(lines[i].ip)) != [] {
      IpProfileFacts(recs, lines[i].ip);
    }
    forall i | 0 <= i < |lines| ensures IpProfileOf(st.ips, Select(recs, ByIp(lines[i].ip)), lines[i].ip) {
      IpProfileFacts(recs, lines[i].ip);
    }
  }

  /** IPs of section 1 with equal attempts are listed in the order of their first record in the file. */
  lemma IpTiesByFirstRecord(recs: seq<Record>)
    ensures WellFormed(Accumulate(recs))
    ensures var lines := IpLines(Accumulate(recs));
            forall i, j :: 0 <= i < j < |lines| && lines[i].attempts == lines[j].attempts ==>
              FirstIndex(recs, ByIp(lines[i].ip)) < FirstIndex(recs, ByIp(lines[j].ip))
  {
    var st := Accumulate(recs);
    AccumulateWellFormed(recs);
    IpTiesKeepOrder(st);
    IpOrderFacts(recs);
  }

  /**
   * Every reported score is at least 1.0: an IP in the report has a record,
   * so at least one port and one payload.
   */
  lemma ScoresAtLeastOne(recs: seq<Record>)
    ensures WellFormed(Accumulate(recs))
    ensures var scores := ScoreLines(Accumulate(recs));
            forall i :: 0 <= i < |scores| ==> scores[i].tenths >= 10
  {
    var st := Accumulate(recs);
    AccumulateWellFormed(recs);
    IpRanking(st);
    ScoreSection(st);
    var lines := IpLines(st);
    forall i | 0 <= i < |lines| ensures lines[i].portCount >= 1 && lines[i].payloadCount >= 1 {
      var ip := lines[i].ip;
      IpProfileFacts(recs, ip);
      var mine := Select(recs, ByIp(ip));
      assert mine[0].port in st.ips[ip].ports;
      assert Payload(mine[0]) in st.ips[ip].payloads;
    }
  }

  /** Each line of section 5 counts the records whose stripped payload it shows, which is never blank. */
  lemma PayloadLinesCountRecords(recs: seq<Record>)
    ensures WellFormed(Accumulate(recs))
    ensures var lines, top := PayloadLines(Accumulate(recs)), TopPayloads(Accumulate(recs));
            forall i :: 0 <= i < |top| ==>
              top[i].0 != "" && lines[i].count == |Select(recs, ByPayload(top[i].0))|
  {
    var st := Accumulate(recs);
    AccumulateWellFormed(recs);
    PayloadRanking(st);
    var top := TopPayloads(st);
    forall i | 0 <= i < |top| ensures top[i].0 != "" && st.patterns[top[i].0] == |Select(recs, ByPayload(top[i].0))| {
      PatternFacts(recs, top[i].0);
    }
  }

  /**
   * `last_seen` is the time of the last record in file order, not the
   * latest time, so a reported duration can be negative.
   */
  lemma DurationCanBeNegative()
    ensures var recs := [Record(5, 0, "10.0.0.1", 22, ""), Record(3, 0, "10.0.0.1", 22, "")];
            && WellFormed(Accumulate(recs))
            && |IpLines(Accumulate(recs))| == 1
            && IpLines(Accumulate(recs))[0].duration == -2
  {
    var ip := "10.0.0.1";
    var r0, r1 := Record(5, 0, ip, 22, ""), Record(3, 0, ip, 22, "");
    AccumulateSnoc([], r0);
    AccumulateSnoc([r0], r1);
    assert [] + [r0] == [r0] && [r0] + [r1] == [r0, r1];
    var st := Accumulate([r0, r1]);
    assert st == Absorb(Absorb(Empty, r0), r1);
    assert st.ipOrder == [ip] && st.ips.Keys == {ip};
    assert st.ips[ip].firstSeen == 5 && st.ips[ip].lastSeen == 3;
    AccumulateWellFormed([r0, r1]);
    IpRanking(st);
  }
}
