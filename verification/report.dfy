/**
 * The report stage of `analyze_logs` (log_analyzer.py:70-119): the ten most
 * active IPs, every port, the hourly distribution, a sophistication score per
 * reported IP and the ten most common payloads. The lines are returned as
 * values; printing and number formatting are not part of the model.
 */
module Report {
  import opened Wrappers
  import opened Analyzer
  import opened Ranking

  /** The longest payload shown in full, and how many entries the top lists keep. */
  const ShownLength := 50
  const TopCount := 10

  datatype IpLine = IpLine(ip: string, attempts: nat, duration: int, portCount: nat, payloadCount: nat)
  datatype PortLine = PortLine(port: int, attempts: nat, attackers: nat, payloadCount: nat)
  datatype HourLine = HourLine(hour: Hour, attempts: nat)
  /** The sophistication score in tenths: 4.2 is 42. */
  datatype ScoreLine = ScoreLine(ip: string, tenths: nat)
  datatype PayloadLine = PayloadLine(count: nat, shown: string)

  datatype Report = Report(
    ips: seq<IpLine>,
    ports: seq<PortLine>,
    hours: seq<HourLine>,
    scores: seq<ScoreLine>,
    payloads: seq<PayloadLine>)

  /** `dict.items()` paired with the count each entry is ranked by. */
  function Entries<K, V>(keys: seq<K>, m: map<K, V>, w: V -> nat): (r: seq<(K, nat)>)
    requires forall i :: 0 <= i < |keys| ==> keys[i] in m
    ensures |r| == |keys|
    ensures forall i :: 0 <= i < |r| ==> r[i] == (keys[i], w(m[keys[i]]))
  {
    if keys == [] then []
    else Entries(keys[..|keys| - 1], m, w) + [(keys[|keys| - 1], w(m[keys[|keys| - 1]]))]
  }

  /** Every entry of a ranking of a dict is one of the dict's keys with its count. */
  lemma RankedAreEntries<K, V>(keys: seq<K>, m: map<K, V>, w: V -> nat)
    requires forall i :: 0 <= i < |keys| ==> keys[i] in m
    ensures forall e :: e in SortDesc(Entries(keys, m, w)) ==> e.0 in keys && e.1 == w(m[e.0])
  {
    var s := Entries(keys, m, w);
    SortDescIsPermutation(s);
    forall e | e in SortDesc(s) ensures e.0 in keys && e.1 == w(m[e.0]) {
      assert e in multiset(SortDesc(s));
      var i :| 0 <= i < |s| && s[i] == e;
    }
  }

  lemma OrdersAreKeys(st: Stats)
    requires WellFormed(st)
    ensures forall i :: 0 <= i < |st.ipOrder| ==> st.ipOrder[i] in st.ips
    ensures forall i :: 0 <= i < |st.portOrder| ==> st.portOrder[i] in st.ports
    ensures forall i :: 0 <= i < |st.patternOrder| ==> st.patternOrder[i] in st.patterns
  {
    forall i | 0 <= i < |st.portOrder| ensures st.portOrder[i] in st.ports {
      var port := st.portOrder[i];
      assert port in st.portOrder;
    }
  }

  /** Payloads longer than 50 characters are cut to 50 and marked with "..." (log_analyzer.py:117-118). */
  function Truncate(p: string): (shown: string)
    ensures |shown| <= ShownLength + 3
  {
    if |p| > ShownLength then p[..ShownLength] + "..." else p
  }

  /** The score of log_analyzer.py:105-108, `0.4 * ports + 0.6 * payloads`, in tenths. */
  function ScoreTenths(p: IpProfile): (tenths: nat)
    ensures tenths as real == 10.0 * (0.4 * |p.ports| as real + 0.6 * |p.payloads| as real)
  {
    4 * |p.ports| + 6 * |p.payloads|
  }

  /** What log_analyzer.py:78-84 prints for one IP; the duration is `last_seen - first_seen`. */
  function IpLineOf(st: Stats, ip: string): IpLine
    requires ip in st.ips
  {
    var p := st.ips[ip];
    IpLine(ip, p.attempts, p.lastSeen - p.firstSeen, |p.ports|, |p.payloads|)
  }

  /** What log_analyzer.py:91-95 prints for one port. */
  function PortLineOf(st: Stats, port: int): PortLine
    requires port in st.ports
  {
    var q := st.ports[port];
    PortLine(port, q.attempts, |q.ips|, |q.payloads|)
  }

  /** The ten IPs with the most attempts, ties in first-appearance order (log_analyzer.py:75-77). */
  function TopIps(st: Stats): seq<(string, nat)>
    requires WellFormed(st)
  {
    OrdersAreKeys(st);
    Top(st.ipOrder, st.ips, IpAttempts, TopCount)
  }

  /** Every port, most attempts first (log_analyzer.py:88-90). */
  function RankedPorts(st: Stats): seq<(int, nat)>
    requires WellFormed(st)
  {
    OrdersAreKeys(st);
    SortDesc(Entries(st.portOrder, st.ports, PortAttempts))
  }

  /** The ten most frequent payloads (log_analyzer.py:113-115). */
  function TopPayloads(st: Stats): seq<(string, nat)>
    requires WellFormed(st)
  {
    OrdersAreKeys(st);
    Top(st.patternOrder, st.patterns, Count, TopCount)
  }

  /**
   * The hour lines of log_analyzer.py:99-100 from hour `h` on: the keys of the
   * histogram in ascending order, each with its count.
   */
  function HourLinesFrom(hourly: map<Hour, nat>, h: nat): seq<HourLine>
    decreases 24 - h
  {
    if h >= 24 then []
    else if h in hourly then [HourLine(h, hourly[h])] + HourLinesFrom(hourly, h + 1)
    else HourLinesFrom(hourly, h + 1)
  }

  function IpLines(st: Stats): seq<IpLine>
    requires WellFormed(st)
  {
    OrdersAreKeys(st);
    var top := TopIps(st);
    RankedAreEntries(st.ipOrder, st.ips, IpAttempts);
    seq(|top|, i requires 0 <= i < |top| => IpLineOf(st, top[i].0))
  }

  function PortLines(st: Stats): seq<PortLine>
    requires WellFormed(st)
  {
    OrdersAreKeys(st);
    var ranked := RankedPorts(st);
    RankedAreEntries(st.portOrder, st.ports, PortAttempts);
    seq(|ranked|, i requires 0 <= i < |ranked| => PortLineOf(st, ranked[i].0))
  }

  /** The scores of log_analyzer.py:104-109, for the IPs of section 1 in the same order. */
  function ScoreLines(st: Stats): seq<ScoreLine>
    requires WellFormed(st)
  {
    OrdersAreKeys(st);
    var top := TopIps(st);
    RankedAreEntries(st.ipOrder, st.ips, IpAttempts);
    seq(|top|, i requires 0 <= i < |top| => ScoreLine(top[i].0, ScoreTenths(st.ips[top[i].0])))
  }

  function PayloadLines(st: Stats): seq<PayloadLine>
    requires WellFormed(st)
  {
    OrdersAreKeys(st);
    var top := TopPayloads(st);
    seq(|top|, i requires 0 <= i < |top| => PayloadLine(top[i].1, Truncate(top[i].0)))
  }

  /** The whole report for the aggregates `st`. */
  function BuildReport(st: Stats): Report
    requires WellFormed(st)
  {
    Report(IpLines(st), PortLines(st), HourLinesFrom(st.hourly, 0), ScoreLines(st), PayloadLines(st))
  }

  /** `sorted(m.items(), key=count, reverse=True)[:n]` for a dict with key order `keys`. */
  function Top<K, V>(keys: seq<K>, m: map<K, V>, w: V -> nat, n: nat): seq<(K, nat)>
    requires forall i :: 0 <= i < |keys| ==> keys[i] in m
  {
    Take(SortDesc(Entries(keys, m, w)), n)
  }

  /** The top `n` holds `min(n, len)` of the dict's keys, each with its count, largest count first. */
  lemma TopContents<K, V>(keys: seq<K>, m: map<K, V>, w: V -> nat, n: nat)
    requires forall i :: 0 <= i < |keys| ==> keys[i] in m
    ensures var r := Top(keys, m, w, n);
            && |r| == (if |keys| < n then |keys| else n)
            && (forall i :: 0 <= i < |r| ==> r[i].0 in keys && r[i].0 in m && r[i].1 == w(m[r[i].0]))
            && NonIncreasing(r)
  {
    var s := Entries(keys, m, w);
    var r := Take(SortDesc(s), n);
    RankedAreEntries(keys, m, w);
    SortDescIsSorted(s);
    forall i | 0 <= i < |r| ensures r[i].0 in keys && r[i].0 in m && r[i].1 == w(m[r[i].0]) {
      assert r[i] == SortDesc(s)[i];
    }
  }

  /** No key left out of the top `n` counts more than a key in it. */
  lemma TopKeepsHeaviest<K, V>(keys: seq<K>, m: map<K, V>, w: V -> nat, n: nat)
    requires forall i :: 0 <= i < |keys| ==> keys[i] in m
    ensures var r := Top(keys, m, w, n);
            forall i, a :: 0 <= i < |r| && 0 <= a < |keys| && (keys[a], w(m[keys[a]])) !in r ==>
              r[i].1 >= w(m[keys[a]])
  {
    var s := Entries(keys, m, w);
    var r := Take(SortDesc(s), n);
    forall i, a | 0 <= i < |r| && 0 <= a < |keys| && (keys[a], w(m[keys[a]])) !in r
      ensures r[i].1 >= w(m[keys[a]])
    {
      assert s[a] == (keys[a], w(m[keys[a]]));
      TakeKeepsHeaviest(s, n, s[a], i);
    }
  }

  /** Keys of equal count come out of the top `n` in the dict's key order. */
  lemma TopKeepsTies<K, V>(keys: seq<K>, m: map<K, V>, w: V -> nat, n: nat)
    requires forall i :: 0 <= i < |keys| ==> keys[i] in m
    ensures var r := Top(keys, m, w, n);
            forall i, j :: 0 <= i < j < |r| && r[i].1 == r[j].1 ==>
              exists a, b :: 0 <= a < b < |keys| && keys[a] == r[i].0 && keys[b] == r[j].0
  {
    var s := Entries(keys, m, w);
    var r := Take(SortDesc(s), n);
    forall i, j | 0 <= i < j < |r| && r[i].1 == r[j].1
      ensures exists a, b :: 0 <= a < b < |keys| && keys[a] == r[i].0 && keys[b] == r[j].0
    {
      assert r[i] == SortDesc(s)[i] && r[j] == SortDesc(s)[j];
      SortDescKeepsTies(s, i, j);
    }
  }

  /** A key left out of the top `n` with the count of a kept key entered the dict after it. */
  lemma TopCutTies<K, V>(keys: seq<K>, m: map<K, V>, w: V -> nat, n: nat)
    requires forall i :: 0 <= i < |keys| ==> keys[i] in m
    requires Distinct(keys)
    ensures var r := Top(keys, m, w, n);
            forall i, a :: 0 <= i < |r| && 0 <= a < |keys| && r[i].1 == w(m[keys[a]]) &&
                           (forall k :: 0 <= k < |r| ==> r[k].0 != keys[a]) ==>
              exists c :: 0 <= c < a && keys[c] == r[i].0
  {
    var s := Entries(keys, m, w);
    var r := Take(SortDesc(s), n);
    forall i, a | 0 <= i < |r| && 0 <= a < |keys| && r[i].1 == w(m[keys[a]]) &&
                  (forall k :: 0 <= k < |r| ==> r[k].0 != keys[a])
      ensures exists c :: 0 <= c < a && keys[c] == r[i].0
    {
      var e := s[a];
      assert e !in r by {
        forall k | 0 <= k < |r| ensures r[k] != e {
          assert r[k].0 != keys[a];
        }
      }
      TakeCutTiesCameLater(s, n, e, i);
      var x, y :| 0 <= x < y < |s| && s[x] == r[i] && s[y] == e;
      assert keys[y] == keys[a];
      assert keys[x] == r[i].0;
    }
  }

  /** A top list as long as the dict lists every key. */
  lemma TopAll<K, V>(keys: seq<K>, m: map<K, V>, w: V -> nat)
    requires forall i :: 0 <= i < |keys| ==> keys[i] in m
    ensures Top(keys, m, w, |keys|) == SortDesc(Entries(keys, m, w))
    ensures forall a :: 0 <= a < |keys| ==>
              exists i :: 0 <= i < |keys| && Top(keys, m, w, |keys|)[i].0 == keys[a]
  {
    var s := Entries(keys, m, w);
    SortDescIsPermutation(s);
    forall a | 0 <= a < |keys| ensures exists i :: 0 <= i < |keys| && SortDesc(s)[i].0 == keys[a] {
      assert s[a] in multiset(SortDesc(s));
      var i :| 0 <= i < |SortDesc(s)| && SortDesc(s)[i] == s[a];
    }
  }

  // ---------------------------------------------------------------------
  // The sections of the report
  // ---------------------------------------------------------------------

  /**
   * Section 1 lists the ten IPs with the most attempts, or all of them when
   * there are fewer, most attempts first.
   */
  lemma IpRanking(st: Stats)
    requires WellFormed(st)
    ensures var lines := IpLines(st);
            && |lines| == (if |st.ipOrder| < TopCount then |st.ipOrder| else TopCount)
            && (forall i :: 0 <= i < |lines| ==> lines[i].ip in st.ips && lines[i] == IpLineOf(st, lines[i].ip))
            && (forall i, j :: 0 <= i < j < |lines| ==> lines[i].attempts >= lines[j].attempts)
  {
    OrdersAreKeys(st);
    TopContents(st.ipOrder, st.ips, IpAttempts, TopCount);
  }

  /** An IP left out of section 1 has no more attempts than any listed one. */
  lemma IpCutKeepsMostActive(st: Stats)
    requires WellFormed(st)
    ensures var lines := IpLines(st);
            forall i, a :: (0 <= i < |lines| && 0 <= a < |st.ipOrder| &&
                            forall k :: 0 <= k < |lines| ==> lines[k].ip != st.ipOrder[a]) ==>
                           lines[i].attempts >= st.ips[st.ipOrder[a]].attempts
  {
    OrdersAreKeys(st);
    var top, lines := TopIps(st), IpLines(st);
    TopContents(st.ipOrder, st.ips, IpAttempts, TopCount);
    TopKeepsHeaviest(st.ipOrder, st.ips, IpAttempts, TopCount);
    forall i, a | 0 <= i < |lines| && 0 <= a < |st.ipOrder| &&
                  (forall k :: 0 <= k < |lines| ==> lines[k].ip != st.ipOrder[a])
      ensures lines[i].attempts >= st.ips[st.ipOrder[a]].attempts
    {
      var e := (st.ipOrder[a], IpAttempts(st.ips[st.ipOrder[a]]));
      assert e !in top by {
        forall k | 0 <= k < |top| ensures top[k] != e {
          assert lines[k].ip == top[k].0;
        }
      }
      assert lines[i].attempts == top[i].1;
    }
  }

  /** An IP left out of section 1 with as many attempts as a listed one entered `ip_analysis` after it. */
  lemma IpCutTiesEnteredLater(st: Stats)
    requires WellFormed(st)
    ensures var lines := IpLines(st);
            forall i, a :: (0 <= i < |lines| && 0 <= a < |st.ipOrder| &&
                            lines[i].attempts == st.ips[st.ipOrder[a]].attempts &&
                            forall k :: 0 <= k < |lines| ==> lines[k].ip != st.ipOrder[a]) ==>
                           exists c :: 0 <= c < a && st.ipOrder[c] == lines[i].ip
  {
    OrdersAreKeys(st);
    var top, lines := TopIps(st), IpLines(st);
    TopContents(st.ipOrder, st.ips, IpAttempts, TopCount);
    TopCutTies(st.ipOrder, st.ips, IpAttempts, TopCount);
    forall k | 0 <= k < |lines| ensures lines[k].ip == top[k].0 && lines[k].attempts == top[k].1 {
    }
  }

  /** IPs of section 1 with equal attempts are listed in the order they entered `ip_analysis`. */
  lemma IpTiesKeepOrder(st: Stats)
    requires WellFormed(st)
    ensures var lines := IpLines(st);
            forall i, j :: 0 <= i < j < |lines| && lines[i].attempts == lines[j].attempts ==>
              exists a, b :: 0 <= a < b < |st.ipOrder| && st.ipOrder[a] == lines[i].ip && st.ipOrder[b] == lines[j].ip
  {
    OrdersAreKeys(st);
    var top, lines := TopIps(st), IpLines(st);
    TopContents(st.ipOrder, st.ips, IpAttempts, TopCount);
    TopKeepsTies(st.ipOrder, st.ips, IpAttempts, TopCount);
    assert forall i :: 0 <= i < |lines| ==> lines[i].ip == top[i].0 && lines[i].attempts == top[i].1;
  }

  /** Section 2 lists the ports, most attempts first, as many as there are. */
  lemma PortRanking(st: Stats)
    requires WellFormed(st)
    ensures var lines := PortLines(st);
            && |lines| == |st.portOrder|
            && (forall i :: 0 <= i < |lines| ==> lines[i].port in st.ports && lines[i] == PortLineOf(st, lines[i].port))
            && (forall i, j :: 0 <= i < j < |lines| ==> lines[i].attempts >= lines[j].attempts)
  {
    OrdersAreKeys(st);
    TopContents(st.portOrder, st.ports, PortAttempts, |st.portOrder|);
    var ranked, lines := RankedPorts(st), PortLines(st);
    assert Top(st.portOrder, st.ports, PortAttempts, |st.portOrder|) == ranked;
    forall i | 0 <= i < |lines|
      ensures lines[i].port in st.ports && lines[i] == PortLineOf(st, lines[i].port)
      ensures lines[i].attempts == ranked[i].1
    {
      assert lines[i] == PortLineOf(st, ranked[i].0);
    }
  }

  /** Every port of `port_analysis` is in section 2. */
  lemma PortsAllListed(st: Stats)
    requires WellFormed(st)
    ensures var lines := PortLines(st);
            forall port :: port in st.ports ==> exists i :: 0 <= i < |lines| && lines[i].port == port
  {
    OrdersAreKeys(st);
    var n := |st.portOrder|;
    TopAll(st.portOrder, st.ports, PortAttempts);
    var ranked, lines := RankedPorts(st), PortLines(st);
    forall port | port in st.ports ensures exists i :: 0 <= i < |lines| && lines[i].port == port {
      assert port in st.portOrder;
      var a :| 0 <= a < n && st.portOrder[a] == port;
      var i :| 0 <= i < n && ranked[i].0 == st.portOrder[a];
      assert lines[i].port == port;
    }
  }

  /** Ports with equal attempts are listed in the order they entered `port_analysis`. */
  lemma PortTiesKeepOrder(st: Stats)
    requires WellFormed(st)
    ensures var lines := PortLines(st);
            forall i, j :: 0 <= i < j < |lines| && lines[i].attempts == lines[j].attempts ==>
              exists a, b :: 0 <= a < b < |st.portOrder| && st.portOrder[a] == lines[i].port && st.portOrder[b] == lines[j].port
  {
    OrdersAreKeys(st);
    var n := |st.portOrder|;
    TopContents(st.portOrder, st.ports, PortAttempts, n);
    TopKeepsTies(st.portOrder, st.ports, PortAttempts, n);
    var ranked, lines := RankedPorts(st), PortLines(st);
    assert Top(st.portOrder, st.ports, PortAttempts, n) == ranked;
    forall i | 0 <= i < |lines| ensures lines[i].port == ranked[i].0 && lines[i].attempts == ranked[i].1 {
      assert lines[i] == PortLineOf(st, ranked[i].0);
    }
  }

  /**
   * Section 5 lists the ten most frequent payloads, or all of them, most
   * frequent first, each shown truncated.
   */
  lemma PayloadRanking(st: Stats)
    requires WellFormed(st)
    ensures var lines, top := PayloadLines(st), TopPayloads(st);
            && |lines| == |top| == (if |st.patternOrder| < TopCount then |st.patternOrder| else TopCount)
            && (forall i :: 0 <= i < |top| ==>
                  top[i].0 in st.patterns && lines[i] == PayloadLine(st.patterns[top[i].0], Truncate(top[i].0)))
            && (forall i, j :: 0 <= i < j < |lines| ==> lines[i].count >= lines[j].count)
  {
    OrdersAreKeys(st);
    TopContents(st.patternOrder, st.patterns, Count, TopCount);
  }

  /** A payload left out of section 5 is no more frequent than any listed one. */
  lemma PayloadCutKeepsMostFrequent(st: Stats)
    requires WellFormed(st)
    ensures var lines, top := PayloadLines(st), TopPayloads(st);
            forall i, a :: (0 <= i < |top| && 0 <= a < |st.patternOrder| &&
                            forall k :: 0 <= k < |top| ==> top[k].0 != st.patternOrder[a]) ==>
                           lines[i].count >= st.patterns[st.patternOrder[a]]
  {
    OrdersAreKeys(st);
    var lines, top := PayloadLines(st), TopPayloads(st);
    TopKeepsHeaviest(st.patternOrder, st.patterns, Count, TopCount);
    forall i, a | 0 <= i < |top| && 0 <= a < |st.patternOrder| &&
                  (forall k :: 0 <= k < |top| ==> top[k].0 != st.patternOrder[a])
      ensures lines[i].count >= st.patterns[st.patternOrder[a]]
    {
      var e := (st.patternOrder[a], Count(st.patterns[st.patternOrder[a]]));
      assert e !in top by {
        forall k | 0 <= k < |top| ensures top[k] != e {
        }
      }
      assert lines[i].count == top[i].1;
    }
  }

  /** A payload left out of section 5 as frequent as a listed one entered `data_patterns` after it. */
  lemma PayloadCutTiesEnteredLater(st: Stats)
    requires WellFormed(st)
    ensures var lines, top := PayloadLines(st), TopPayloads(st);
            forall i, a :: (0 <= i < |top| && 0 <= a < |st.patternOrder| &&
                            lines[i].count == st.patterns[st.patternOrder[a]] &&
                            forall k :: 0 <= k < |top| ==> top[k].0 != st.patternOrder[a]) ==>
                           exists c :: 0 <= c < a && st.patternOrder[c] == top[i].0
  {
    OrdersAreKeys(st);
    var top := TopPayloads(st);
    TopContents(st.patternOrder, st.patterns, Count, TopCount);
    TopCutTies(st.patternOrder, st.patterns, Count, TopCount);
  }

  /** Equally frequent payloads are listed in the order they entered `data_patterns`. */
  lemma PayloadTiesKeepOrder(st: Stats)
    requires WellFormed(st)
    ensures var lines, top := PayloadLines(st), TopPayloads(st);
            forall i, j :: 0 <= i < j < |top| && lines[i].count == lines[j].count ==>
              exists a, b :: 0 <= a < b < |st.patternOrder| && st.patternOrder[a] == top[i].0 && st.patternOrder[b] == top[j].0
  {
    OrdersAreKeys(st);
    TopContents(st.patternOrder, st.patterns, Count, TopCount);
    TopKeepsTies(st.patternOrder, st.patterns, Count, TopCount);
  }

  /** Section 4 gives each IP of section 1, in the same order, its score `4 * ports + 6 * payloads` in tenths. */
  lemma ScoreSection(st: Stats)
    requires WellFormed(st)
    ensures var scores, ips := ScoreLines(st), IpLines(st);
            && |scores| == |ips|
            && forall i :: 0 <= i < |scores| ==>
                 scores[i].ip == ips[i].ip && scores[i].tenths == 4 * ips[i].portCount + 6 * ips[i].payloadCount
  {
  }

  /** Each hour line from hour `h` on is a histogram entry for an hour at or after `h`. */
  lemma {:induction false} HourLineAt(hourly: map<Hour, nat>, h: nat, i: nat)
    requires i < |HourLinesFrom(hourly, h)|
    ensures var line := HourLinesFrom(hourly, h)[i];
            h <= line.hour && line.hour in hourly && line.attempts == hourly[line.hour]
    decreases 24 - h
  {
    if h !in hourly {
      HourLineAt(hourly, h + 1, i);
    } else if i > 0 {
      HourLineAt(hourly, h + 1, i - 1);
    }
  }

  /** Hour lines from hour `h` on are strictly ascending. */
  lemma {:induction false} HourLinesAscend(hourly: map<Hour, nat>, h: nat, i: nat, j: nat)
    requires i < j < |HourLinesFrom(hourly, h)|
    ensures HourLinesFrom(hourly, h)[i].hour < HourLinesFrom(hourly, h)[j].hour
    decreases 24 - h
  {
    if h !in hourly {
      HourLinesAscend(hourly, h + 1, i, j);
    } else if i == 0 {
      HourLineAt(hourly, h + 1, j - 1);
    } else {
      HourLinesAscend(hourly, h + 1, i - 1, j - 1);
    }
  }

  /** Every histogram hour at or after `h` has a line from hour `h` on. */
  lemma {:induction false} HourLineListed(hourly: map<Hour, nat>, h: nat, k: Hour)
    requires h <= k && k in hourly
    ensures exists i :: 0 <= i < |HourLinesFrom(hourly, h)| && HourLinesFrom(hourly, h)[i].hour == k
    decreases 24 - h
  {
    var lines := HourLinesFrom(hourly, h);
    if k == h {
      assert lines[0].hour == k;
    } else {
      HourLineListed(hourly, h + 1, k);
      var rest := HourLinesFrom(hourly, h + 1);
      var i :| 0 <= i < |rest| && rest[i].hour == k;
      if h in hourly {
        assert lines[i + 1].hour == k;
      } else {
        assert lines[i].hour == k;
      }
    }
  }

  /**
   * Section 3 from hour `h` on lists the histogram's hours, each once, in
   * ascending order, with their counts.
   */
  lemma HourLinesFacts(hourly: map<Hour, nat>, h: nat)
    ensures var lines := HourLinesFrom(hourly, h);
            && (forall i :: 0 <= i < |lines| ==>
                  h <= lines[i].hour && lines[i].hour in hourly && lines[i].attempts == hourly[lines[i].hour])
            && (forall i, j :: 0 <= i < j < |lines| ==> lines[i].hour < lines[j].hour)
            && (forall k: Hour :: h <= k && k in hourly ==> exists i :: 0 <= i < |lines| && lines[i].hour == k)
  {
    var lines := HourLinesFrom(hourly, h);
    forall i | 0 <= i < |lines|
      ensures h <= lines[i].hour && lines[i].hour in hourly && lines[i].attempts == hourly[lines[i].hour]
    {
      HourLineAt(hourly, h, i);
    }
    forall i, j | 0 <= i < j < |lines| ensures lines[i].hour < lines[j].hour {
      HourLinesAscend(hourly, h, i, j);
    }
    forall k: Hour | h <= k && k in hourly ensures exists i :: 0 <= i < |lines| && lines[i].hour == k {
      HourLineListed(hourly, h, k);
    }
  }

  lemma HourSection(st: Stats)
    ensures var lines := HourLinesFrom(st.hourly, 0);
            && (forall i, j :: 0 <= i < j < |lines| ==> lines[i].hour < lines[j].hour)
            && (forall i :: 0 <= i < |lines| ==> lines[i].hour in st.hourly && lines[i].attempts == st.hourly[lines[i].hour])
            && (forall h :: h in st.hourly ==> exists i :: 0 <= i < |lines| && lines[i].hour == h)
  {
    HourLinesFacts(st.hourly, 0);
  }

  /** A shown payload keeps the first 50 characters; only a longer one is cut and marked. */
  lemma TruncateShape(p: string)
    ensures |p| <= ShownLength ==> Truncate(p) == p
    ensures |p| > ShownLength ==> Truncate(p) == p[..ShownLength] + "..."
    ensures |p| > ShownLength ==> |Truncate(p)| == ShownLength + 3 && Truncate(p)[..ShownLength] == p[..ShownLength]
  {
  }
}
