/**
 * What the aggregates of `analyze_logs` mean, stated against reference
 * definitions that do not mention the fold: the valid records in file order,
 * and the records that match a given IP, port, hour or payload.
 */
module AnalyzerFacts {
  import opened Wrappers
  import Text
  import opened Analyzer

  /** The records of the lines that parse, in file order. */
  function ValidRecords(lines: seq<Line>): seq<Record> {
    if lines == [] then []
    else ValidRecords(lines[..|lines| - 1]) + (if lines[|lines| - 1].Valid? then [lines[|lines| - 1].rec] else [])
  }

  predicate NoAbort(lines: seq<Line>) {
    forall i :: 0 <= i < |lines| ==> !lines[i].Aborts?
  }

  /** The aggregates after the given records, in order. */
  function Accumulate(recs: seq<Record>): Stats {
    if recs == [] then Empty else Absorb(Accumulate(recs[..|recs| - 1]), recs[|recs| - 1])
  }

  /** What a question about the records is about. */
  datatype Key = ByIp(ip: string) | ByPort(port: int) | ByHour(hour: Hour) | ByPayload(payload: string)

  predicate Matches(r: Record, k: Key) {
    match k
    case ByIp(ip) => r.ip == ip
    case ByPort(port) => r.port == port
    case ByHour(h) => r.hour == h
    case ByPayload(p) => Payload(r) == p
  }

  /** The records that match `k`, in file order. */
  function Select(recs: seq<Record>, k: Key): seq<Record> {
    if recs == [] then []
    else Select(recs[..|recs| - 1], k) + (if Matches(recs[|recs| - 1], k) then [recs[|recs| - 1]] else [])
  }

  lemma SelectSnoc(recs: seq<Record>, x: Record, k: Key)
    ensures Select(recs + [x], k) == Select(recs, k) + (if Matches(x, k) then [x] else [])
  {
    assert (recs + [x])[..|recs|] == recs;
  }

  lemma AccumulateSnoc(recs: seq<Record>, x: Record)
    ensures Accumulate(recs + [x]) == Absorb(Accumulate(recs), x)
  {
    assert (recs + [x])[..|recs|] == recs;
  }

  // ---------------------------------------------------------------------
  // Which lines count
  // ---------------------------------------------------------------------

  /**
   * The analysis succeeds exactly when no line raises an uncaught error, and
   * then its aggregates are those of the valid records alone: skipped lines
   * leave no trace.
   */
  lemma {:induction false} IngestOutcome(lines: seq<Line>)
    ensures Ingest(lines).Success? <==> NoAbort(lines)
    ensures Ingest(lines).Success? ==> Ingest(lines).value == Accumulate(ValidRecords(lines))
  {
    if lines != [] {
      var init, last := lines[..|lines| - 1], lines[|lines| - 1];
      IngestOutcome(init);
      assert NoAbort(lines) <==> NoAbort(init) && !last.Aborts? by {
        forall i | 0 <= i < |init| ensures init[i] == lines[i] { }
      }
      assert ValidRecords(lines) == ValidRecords(init) + (if last.Valid? then [last.rec] else []);
      if NoAbort(init) {
        match last
        case Valid(r) => AccumulateSnoc(ValidRecords(init), r);
        case Skipped => assert ValidRecords(lines) == ValidRecords(init);
        case Aborts(_) =>
      }
    }
  }

  /** A failed analysis reports the error of the first line that raised one. */
  lemma {:induction false} IngestFailsAtFirstAbort(lines: seq<Line>)
    requires Ingest(lines).Failure?
    ensures exists i :: 0 <= i < |lines| && lines[i] == Aborts(Ingest(lines).error) && NoAbort(lines[..i])
  {
    var init, last := lines[..|lines| - 1], lines[|lines| - 1];
    if Ingest(init).Failure? {
      IngestFailsAtFirstAbort(init);
      var i :| 0 <= i < |init| && init[i] == Aborts(Ingest(init).error) && NoAbort(init[..i]);
      assert lines[..i] == init[..i];
    } else {
      IngestOutcome(init);
      assert lines[..|init|] == init;
    }
  }

  /** A line skipped for JSONDecodeError or KeyError changes no aggregate. */
  lemma {:induction false} SkippedLineChangesNothing(a: seq<Line>, b: seq<Line>)
    ensures Ingest(a + [Skipped] + b) == Ingest(a + b)
    decreases |b|
  {
    if b == [] {
      assert (a + [Skipped])[..|a|] == a;
      assert a + [Skipped] + b == a + [Skipped] && a + b == a;
    } else {
      var b' := b[..|b| - 1];
      SkippedLineChangesNothing(a, b');
      assert (a + [Skipped] + b)[..|a + [Skipped] + b| - 1] == a + [Skipped] + b';
      assert (a + b)[..|a + b| - 1] == a + b';
    }
  }

  // ---------------------------------------------------------------------
  // The profiles
  // ---------------------------------------------------------------------

  /**
   * An IP has a profile exactly when some record comes from it; the profile
   * counts its records, takes `first_seen` from the first of them and
   * `last_seen` from the last of them in file order (not the latest
   * timestamp), and collects their ports and stripped payloads.
   */
  lemma {:induction false} IpProfileFacts(recs: seq<Record>, ip: string)
    ensures IpProfileOf(Accumulate(recs).ips, Select(recs, ByIp(ip)), ip)
  {
    if recs != [] {
      var init, x := recs[..|recs| - 1], recs[|recs| - 1];
      assert recs == init + [x];
      IpProfileFacts(init, ip);
      AccumulateSnoc(init, x);
      SelectSnoc(init, x, ByIp(ip));
      if x.ip == ip {
        IpProfileStep(Accumulate(init).ips, Select(init, ByIp(ip)), x);
      }
    }
  }

  /** The facts of IpProfileFacts for one IP, given its records `mine`. */
  ghost predicate IpProfileOf(ips: map<string, IpProfile>, mine: seq<Record>, ip: string) {
    && (ip in ips <==> mine != [])
    && (ip in ips ==>
          && ips[ip].attempts == |mine|
          && ips[ip].firstSeen == mine[0].timestamp
          && ips[ip].lastSeen == mine[|mine| - 1].timestamp
          && ips[ip].ports == (set r | r in mine :: r.port)
          && ips[ip].payloads == (set r | r in mine :: Payload(r)))
  }

  lemma IpProfileStep(ips: map<string, IpProfile>, mine: seq<Record>, x: Record)
    requires IpProfileOf(ips, mine, x.ip)
    ensures IpProfileOf(TouchIp(ips, x), mine + [x], x.ip)
  {
    var ip, mine' := x.ip, mine + [x];
    assert (set r | r in mine' :: r.port) == (set r | r in mine :: r.port) + {x.port};
    assert (set r | r in mine' :: Payload(r)) == (set r | r in mine :: Payload(r)) + {Payload(x)};
    if mine != [] {
      assert mine'[0] == mine[0];
    }
  }

  /**
   * A port has a profile exactly when some record targets it; the profile
   * counts those records and collects their IPs and stripped payloads.
   */
  lemma {:induction false} PortProfileFacts(recs: seq<Record>, port: int)
    ensures PortProfileOf(Accumulate(recs).ports, Select(recs, ByPort(port)), port)
  {
    if recs != [] {
      var init, x := recs[..|recs| - 1], recs[|recs| - 1];
      assert recs == init + [x];
      PortProfileFacts(init, port);
      AccumulateSnoc(init, x);
      SelectSnoc(init, x, ByPort(port));
      if x.port == port {
        PortProfileStep(Accumulate(init).ports, Select(init, ByPort(port)), x);
      }
    }
  }

  /** The facts of PortProfileFacts for one port, given the records `hits` that target it. */
  ghost predicate PortProfileOf(ports: map<int, PortProfile>, hits: seq<Record>, port: int) {
    && (port in ports <==> hits != [])
    && (port in ports ==>
          && ports[port].attempts == |hits|
          && ports[port].ips == (set r | r in hits :: r.ip)
          && ports[port].payloads == (set r | r in hits :: Payload(r)))
  }

  lemma PortProfileStep(ports: map<int, PortProfile>, hits: seq<Record>, x: Record)
    requires PortProfileOf(ports, hits, x.port)
    ensures PortProfileOf(TouchPort(ports, x), hits + [x], x.port)
  {
    var hits' := hits + [x];
    assert (set r | r in hits' :: r.ip) == (set r | r in hits :: r.ip) + {x.ip};
    assert (set r | r in hits' :: Payload(r)) == (set r | r in hits :: Payload(r)) + {Payload(x)};
  }

  /** The histogram holds, for each hour that occurs, the number of records in it. */
  lemma {:induction false} HourlyFacts(recs: seq<Record>, h: Hour)
    ensures var st, hits := Accumulate(recs), Select(recs, ByHour(h));
            && (h in st.hourly <==> hits != [])
            && (h in st.hourly ==> st.hourly[h] == |hits|)
  {
    if recs != [] {
      var init, x := recs[..|recs| - 1], recs[|recs| - 1];
      assert recs == init + [x];
      HourlyFacts(init, h);
      AccumulateSnoc(init, x);
      SelectSnoc(init, x, ByHour(h));
    }
  }

  /**
   * The payload table counts, for each non-empty stripped payload, the records
   * that carry it; a payload that strips to "" is never a key.
   */
  lemma {:induction false} PatternFacts(recs: seq<Record>, p: string)
    ensures var st, hits := Accumulate(recs), Select(recs, ByPayload(p));
            && (p in st.patterns <==> p != "" && hits != [])
            && (p in st.patterns ==> st.patterns[p] == |hits|)
  {
    if recs != [] {
      var init, x := recs[..|recs| - 1], recs[|recs| - 1];
      assert recs == init + [x];
      PatternFacts(init, p);
      AccumulateSnoc(init, x);
      SelectSnoc(init, x, ByPayload(p));
    }
  }

  /** The timeline lists every valid record, in file order. */
  lemma {:induction false} TimelineFacts(recs: seq<Record>)
    ensures var t := Accumulate(recs).timeline;
            && |t| == |recs|
            && forall i :: 0 <= i < |recs| ==> t[i] == Event(recs[i].timestamp, recs[i].ip, recs[i].port)
  {
    if recs != [] {
      var init, x := recs[..|recs| - 1], recs[|recs| - 1];
      TimelineFacts(init);
      assert recs == init + [x];
      AccumulateSnoc(init, x);
      var before, t := Accumulate(init).timeline, Accumulate(recs).timeline;
      assert t == before + [Event(x.timestamp, x.ip, x.port)];
      forall i | 0 <= i < |init| ensures t[i] == Event(recs[i].timestamp, recs[i].ip, recs[i].port) {
        assert t[i] == before[i] && recs[i] == init[i];
      }
    }
  }

  // ---------------------------------------------------------------------
  // Key order: a dict lists its keys in order of first appearance
  // ---------------------------------------------------------------------

  /** The position of the first record that matches `k`, or |recs| when none does. */
  function FirstIndex(recs: seq<Record>, k: Key): (n: nat)
    ensures n <= |recs|
    ensures n < |recs| ==> Matches(recs[n], k)
    ensures forall j :: 0 <= j < n && j < |recs| ==> !Matches(recs[j], k)
  {
    if recs == [] then 0
    else if Matches(recs[0], k) then 0
    else 1 + FirstIndex(recs[1..], k)
  }

  lemma {:induction false} FirstIndexSnoc(recs: seq<Record>, x: Record, k: Key)
    ensures FirstIndex(recs + [x], k) ==
              if FirstIndex(recs, k) < |recs| then FirstIndex(recs, k)
              else if Matches(x, k) then |recs| else |recs| + 1
  {
    if recs != [] && !Matches(recs[0], k) {
      assert (recs + [x])[1..] == recs[1..] + [x];
      FirstIndexSnoc(recs[1..], x, k);
    }
  }

  /** `order` lists keys that occur in `recs`, sorted by where they first occur. */
  ghost predicate FirstAppearanceOrder<K>(order: seq<K>, recs: seq<Record>, key: K -> Key) {
    && (forall a :: 0 <= a < |order| ==> FirstIndex(recs, key(order[a])) < |recs|)
    && (forall a, b :: 0 <= a < b < |order| ==> FirstIndex(recs, key(order[a])) < FirstIndex(recs, key(order[b])))
  }

  lemma FirstAppearanceDistinct<K>(order: seq<K>, recs: seq<Record>, key: K -> Key)
    requires FirstAppearanceOrder(order, recs, key)
    ensures Distinct(order)
  {
  }

  /** After a record, a key order keeps its entries and maybe gains the record's key. */
  lemma FirstAppearanceSnoc<K>(order: seq<K>, recs: seq<Record>, x: Record, key: K -> Key, isNew: bool, k: K)
    requires FirstAppearanceOrder(order, recs, key)
    requires isNew ==> Matches(x, key(k)) && FirstIndex(recs, key(k)) == |recs|
    ensures FirstAppearanceOrder(if isNew then order + [k] else order, recs + [x], key)
  {
    var order' := if isNew then order + [k] else order;
    forall a | 0 <= a < |order'|
      ensures FirstIndex(recs + [x], key(order'[a])) ==
                if a < |order| then FirstIndex(recs, key(order[a])) else |recs|
    {
      FirstIndexSnoc(recs, x, key(order'[a]));
    }
  }

  /** `ip_analysis` lists the IPs that occur, in order of their first record. */
  lemma {:induction false} IpOrderFacts(recs: seq<Record>)
    ensures var st := Accumulate(recs);
            && (forall ip :: ip in st.ipOrder <==> ip in st.ips)
            && (forall ip :: ip in st.ips <==> FirstIndex(recs, ByIp(ip)) < |recs|)
            && FirstAppearanceOrder(st.ipOrder, recs, ip => ByIp(ip))
  {
    if recs != [] {
      var init, x := recs[..|recs| - 1], recs[|recs| - 1];
      assert recs == init + [x];
      IpOrderFacts(init);
      AccumulateSnoc(init, x);
      var st0 := Accumulate(init);
      forall ip ensures FirstIndex(recs, ByIp(ip)) < |recs| <==> ip in st0.ips || ip == x.ip {
        FirstIndexSnoc(init, x, ByIp(ip));
      }
      FirstAppearanceSnoc(st0.ipOrder, init, x, ip => ByIp(ip), x.ip !in st0.ips, x.ip);
    }
  }

  /** `port_analysis` lists the ports that occur, in order of their first record. */
  lemma {:induction false} PortOrderFacts(recs: seq<Record>)
    ensures var st := Accumulate(recs);
            && (forall p :: p in st.portOrder <==> p in st.ports)
            && (forall p :: p in st.ports <==> FirstIndex(recs, ByPort(p)) < |recs|)
            && FirstAppearanceOrder(st.portOrder, recs, p => ByPort(p))
  {
    if recs != [] {
      var init, x := recs[..|recs| - 1], recs[|recs| - 1];
      assert recs == init + [x];
      PortOrderFacts(init);
      AccumulateSnoc(init, x);
      var st0 := Accumulate(init);
      forall p ensures FirstIndex(recs, ByPort(p)) < |recs| <==> p in st0.ports || p == x.port {
        FirstIndexSnoc(init, x, ByPort(p));
      }
      FirstAppearanceSnoc(st0.portOrder, init, x, p => ByPort(p), x.port !in st0.ports, x.port);
    }
  }

  /** `data_patterns` lists the non-empty payloads that occur, in order of their first record. */
  lemma {:induction false} PatternOrderFacts(recs: seq<Record>)
    ensures var st := Accumulate(recs);
            PatternOrderOf(st.patterns, st.patternOrder, recs)
  {
    if recs != [] {
      var init, x := recs[..|recs| - 1], recs[|recs| - 1];
      assert recs == init + [x];
      PatternOrderFacts(init);
      AccumulateSnoc(init, x);
      PatternOrderStep(Accumulate(init).patterns, Accumulate(init).patternOrder, init, x);
    }
  }

  lemma PatternOrderStep(patterns: map<string, nat>, order: seq<string>, recs: seq<Record>, x: Record)
    requires PatternOrderOf(patterns, order, recs)
    ensures var d := Payload(x);
            PatternOrderOf(if d == "" then patterns else Bump(patterns, d),
                           if d == "" then order else Remember(order, patterns, d), recs + [x])
  {
    if Payload(x) == "" {
      PatternOrderBlank(patterns, order, recs, x);
    } else {
      PatternOrderSeen(patterns, order, recs, x);
    }
  }

  /** A record whose payload is blank leaves the pattern order as it is. */
  lemma PatternOrderBlank(patterns: map<string, nat>, order: seq<string>, recs: seq<Record>, x: Record)
    requires PatternOrderOf(patterns, order, recs) && Payload(x) == ""
    ensures PatternOrderOf(patterns, order, recs + [x])
  {
    forall d' | d' != "" ensures FirstIndex(recs + [x], ByPayload(d')) < |recs + [x]| <==>
                                 FirstIndex(recs, ByPayload(d')) < |recs| {
      FirstIndexSnoc(recs, x, ByPayload(d'));
    }
    FirstAppearanceSnoc(order, recs, x, d => ByPayload(d), false, "");
  }

  /** A record with a non-blank payload appends that payload if it is new. */
  lemma PatternOrderSeen(patterns: map<string, nat>, order: seq<string>, recs: seq<Record>, x: Record)
    requires PatternOrderOf(patterns, order, recs) && Payload(x) != ""
    ensures PatternOrderOf(Bump(patterns, Payload(x)), Remember(order, patterns, Payload(x)), recs + [x])
  {
    var d := Payload(x);
    forall d' ensures FirstIndex(recs + [x], ByPayload(d')) < |recs + [x]| <==>
                        FirstIndex(recs, ByPayload(d')) < |recs| || d' == d {
      FirstIndexSnoc(recs, x, ByPayload(d'));
    }
    FirstAppearanceSnoc(order, recs, x, d => ByPayload(d), d !in patterns, d);
    PatternOrderGrown(patterns, order, recs, x);
  }

  /** The facts of PatternOrderFacts. */
  ghost predicate PatternOrderOf(patterns: map<string, nat>, order: seq<string>, recs: seq<Record>) {
    && (forall d :: d in order <==> d in patterns)
    && (forall d :: d in patterns <==> d != "" && FirstIndex(recs, ByPayload(d)) < |recs|)
    && FirstAppearanceOrder(order, recs, d => ByPayload(d))
  }

  lemma PatternOrderGrown(patterns: map<string, nat>, order: seq<string>, recs: seq<Record>, x: Record)
    requires PatternOrderOf(patterns, order, recs) && Payload(x) != ""
    requires FirstAppearanceOrder(Remember(order, patterns, Payload(x)), recs + [x], d => ByPayload(d))
    requires forall d' :: FirstIndex(recs + [x], ByPayload(d')) < |recs + [x]| <==>
                          FirstIndex(recs, ByPayload(d')) < |recs| || d' == Payload(x)
    ensures PatternOrderOf(Bump(patterns, Payload(x)), Remember(order, patterns, Payload(x)), recs + [x])
  {
  }

  /** The aggregates are well formed: each key order lists its dict's keys once. */
  lemma AccumulateWellFormed(recs: seq<Record>)
    ensures WellFormed(Accumulate(recs))
  {
    var st := Accumulate(recs);
    IpOrderFacts(recs);
    PortOrderFacts(recs);
    PatternOrderFacts(recs);
    FirstAppearanceDistinct(st.ipOrder, recs, ip => ByIp(ip));
    FirstAppearanceDistinct(st.portOrder, recs, p => ByPort(p));
    FirstAppearanceDistinct(st.patternOrder, recs, d => ByPayload(d));
  }
}
