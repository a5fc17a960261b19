/**
 * Conservation of the aggregates of `analyze_logs`: every valid record is
 * counted exactly once by the IP profiles, once by the port profiles, once
 * by the hour histogram and once in the timeline, and once by the payload
 * table unless its payload strips to the empty string.
 */
module Conservation {
  import opened Analyzer
  import opened AnalyzerFacts

  /** The value a dict holds for `k` as a count, 0 when `k` is not a key. */
  function Weight<K, V>(m: map<K, V>, w: V -> nat, k: K): nat {
    if k in m then w(m[k]) else 0
  }

  /** The sum of the counts of the keys listed in `keys`. */
  function Total<K, V>(keys: seq<K>, m: map<K, V>, w: V -> nat): nat {
    if keys == [] then 0 else Total(keys[..|keys| - 1], m, w) + Weight(m, w, keys[|keys| - 1])
  }

  /** The total only depends on the counts of the listed keys. */
  lemma {:induction false} TotalFrame<K, V>(keys: seq<K>, m: map<K, V>, m': map<K, V>, w: V -> nat)
    requires forall k :: k in keys ==> Weight(m, w, k) == Weight(m', w, k)
    ensures Total(keys, m, w) == Total(keys, m', w)
  {
    if keys != [] {
      TotalFrame(keys[..|keys| - 1], m, m', w);
    }
  }

  /** Over an empty dict every total is 0. */
  lemma {:induction false} TotalEmpty<K, V>(keys: seq<K>, w: V -> nat)
    ensures Total(keys, map[], w) == 0
  {
    if keys != [] {
      TotalEmpty(keys[..|keys| - 1], w);
    }
  }

  /** Raising the count of one listed key by one raises the total by one. */
  lemma {:induction false} TotalBump<K, V>(keys: seq<K>, m: map<K, V>, m': map<K, V>, w: V -> nat, k: K)
    requires Distinct(keys) && k in keys
    requires Weight(m', w, k) == Weight(m, w, k) + 1
    requires forall j :: j != k ==> Weight(m', w, j) == Weight(m, w, j)
    ensures Total(keys, m', w) == Total(keys, m, w) + 1
  {
    var init, last := keys[..|keys| - 1], keys[|keys| - 1];
    if last == k {
      assert k !in init;
      TotalFrame(init, m, m', w);
    } else {
      assert k in init;
      TotalBump(init, m, m', w, k);
    }
  }

  /**
   * Storing one more occurrence of `k` in a dict, whose key order lists its
   * keys once each, raises the total over the new key order by one.
   */
  lemma TotalRemember<K, V>(order: seq<K>, m: map<K, V>, m': map<K, V>, w: V -> nat, k: K)
    requires Distinct(order) && (forall j :: j in order <==> j in m)
    requires Weight(m', w, k) == Weight(m, w, k) + 1
    requires forall j :: j != k ==> Weight(m', w, j) == Weight(m, w, j)
    ensures Total(Remember(order, m, k), m', w) == Total(order, m, w) + 1
  {
    if k in m {
      TotalBump(order, m, m', w, k);
    } else {
      var order' := order + [k];
      assert order'[..|order|] == order;
      TotalFrame(order, m, m', w);
    }
  }

  /** The payloads that strip to "" (they are not put in `data_patterns`). */
  function Blank(recs: seq<Record>): seq<Record> {
    Select(recs, ByPayload(""))
  }

  /** One more record for an IP raises the summed IP attempts by one (log_analyzer.py:25-37). */
  lemma IpStep(ips: map<string, IpProfile>, order: seq<string>, x: Record)
    requires Distinct(order) && (forall ip :: ip in order <==> ip in ips)
    ensures Total(Remember(order, ips, x.ip), TouchIp(ips, x), IpAttempts) == Total(order, ips, IpAttempts) + 1
  {
    TotalRemember(order, ips, TouchIp(ips, x), IpAttempts, x.ip);
  }

  /** One more record for a port raises the summed port attempts by one (log_analyzer.py:46-52). */
  lemma PortStep(ports: map<int, PortProfile>, order: seq<int>, x: Record)
    requires Distinct(order) && (forall p :: p in order <==> p in ports)
    ensures Total(Remember(order, ports, x.port), TouchPort(ports, x), PortAttempts) == Total(order, ports, PortAttempts) + 1
  {
    forall j: int ensures j in order <==> j in ports {
    }
    TotalRemember(order, ports, TouchPort(ports, x), PortAttempts, x.port);
  }

  /** The per-IP attempts sum to the number of valid records. */
  lemma {:induction false} IpAttemptsConserved(recs: seq<Record>)
    ensures Total(Accumulate(recs).ipOrder, Accumulate(recs).ips, IpAttempts) == |recs|
  {
    if recs != [] {
      var init, x := recs[..|recs| - 1], recs[|recs| - 1];
      assert recs == init + [x];
      IpAttemptsConserved(init);
      AccumulateSnoc(init, x);
      AccumulateWellFormed(init);
      IpStep(Accumulate(init).ips, Accumulate(init).ipOrder, x);
    }
  }

  /** The per-port attempts sum to the number of valid records. */
  lemma {:induction false} PortAttemptsConserved(recs: seq<Record>)
    ensures Total(Accumulate(recs).portOrder, Accumulate(recs).ports, PortAttempts) == |recs|
  {
    if recs != [] {
      var init, x := recs[..|recs| - 1], recs[|recs| - 1];
      assert recs == init + [x];
      PortAttemptsConserved(init);
      AccumulateSnoc(init, x);
      AccumulateWellFormed(init);
      PortStep(Accumulate(init).ports, Accumulate(init).portOrder, x);
    }
  }

  /** One more record in an hour raises the summed hourly counts by one. */
  lemma HourStep(hourly: map<Hour, nat>, h: Hour)
    ensures Total(AllHours, Bump(hourly, h), Count) == Total(AllHours, hourly, Count) + 1
  {
    AllHoursFacts();
    var hourly' := Bump(hourly, h);
    forall j: Hour | j != h ensures Weight(hourly', Count, j) == Weight(hourly, Count, j) {
    }
    TotalBump(AllHours, hourly, hourly', Count, h);
  }

  /** The hourly counts, over the 24 hours, sum to the number of valid records (log_analyzer.py:42-43). */
  lemma {:induction false} HoursConserved(recs: seq<Record>)
    ensures Total(AllHours, Accumulate(recs).hourly, Count) == |recs|
  {
    if recs != [] {
      var init, x := recs[..|recs| - 1], recs[|recs| - 1];
      assert recs == init + [x];
      HoursConserved(init);
      AccumulateSnoc(init, x);
      HourStep(Accumulate(init).hourly, x.hour);
    } else {
      TotalEmpty(AllHours, Count);
    }
  }

  /**
   * The payload counts sum to the number of valid records whose payload is
   * not blank (log_analyzer.py:57-58).
   */
  lemma {:induction false} PatternsConserved(recs: seq<Record>)
    ensures Total(Accumulate(recs).patternOrder, Accumulate(recs).patterns, Count) + |Blank(recs)| == |recs|
  {
    if recs != [] {
      var init, x := recs[..|recs| - 1], recs[|recs| - 1];
      assert recs == init + [x];
      PatternsConserved(init);
      AccumulateSnoc(init, x);
      SelectSnoc(init, x, ByPayload(""));
      var d := Payload(x);
      if d != "" {
        AccumulateWellFormed(init);
        var st := Accumulate(init);
        TotalRemember(st.patternOrder, st.patterns, Bump(st.patterns, d), Count, d);
      }
    }
  }
}
