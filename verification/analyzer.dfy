/**
 * The aggregation half of `analyze_logs` (log_analyzer.py): one pass over
 * the lines of a record file that builds the per-IP and per-port profiles,
 * the hour-of-day histogram, the payload frequency table and the attack
 * timeline.
 *
 * Parsing is outside the model: every line arrives already classified.
 * The three ranked dicts (`ip_analysis`, `port_analysis`, `data_patterns`)
 * are each a `map` plus a `seq` of its keys in insertion order, because that
 * order decides how ties come out of the ranking. `hourly_attacks` is a plain
 * `map`: only its sorted keys are read.
 */
module Analyzer {
  import opened Wrappers
  import Text

  /** `timestamp.hour` of a parsed timestamp. */
  type Hour = h: int | 0 <= h < 24

  /** A parsed timestamp; only the difference of two of them is ever used. */
  type Instant = int

  /** One parsed line: the four fields read at log_analyzer.py:19-22. */
  datatype Record = Record(timestamp: Instant, hour: Hour, ip: string, port: int, data: string)

  /**
   * Errors that escape the `except` clause and end the whole analysis:
   * a JSON value that is not an object (indexing it raises TypeError),
   * a timestamp `fromisoformat` rejects (ValueError, or TypeError when it is
   * not a string) and a `data` field that has no `strip` (AttributeError).
   * `OtherError` stands for any other exception that ends the loop, such as
   * a UnicodeDecodeError while reading the file (log_analyzer.py:16, outside
   * the `try`) or a RecursionError from `json.loads` on deeply nested input.
   */
  datatype Fatal = NotAnObject | BadTimestamp | DataNotText | OtherError

  /**
   * A line as `json.loads` plus the field reads see it: a record, a line
   * skipped because it raised JSONDecodeError or KeyError, or a line whose
   * error is not caught.
   */
  datatype Line = Valid(rec: Record) | Skipped | Aborts(reason: Fatal)

  datatype IpProfile = IpProfile(
    attempts: nat,
    firstSeen: Instant,
    lastSeen: Instant,
    ports: set<int>,
    payloads: set<string>)

  datatype PortProfile = PortProfile(attempts: nat, ips: set<string>, payloads: set<string>)

  /** An `attack_timeline` entry. */
  datatype Event = Event(timestamp: Instant, ip: string, port: int)

  /** The four dicts, the key orders of the three ranked ones, and the timeline. */
  datatype Stats = Stats(
    ips: map<string, IpProfile>,
    ipOrder: seq<string>,
    ports: map<int, PortProfile>,
    portOrder: seq<int>,
    hourly: map<Hour, nat>,
    patterns: map<string, nat>,
    patternOrder: seq<string>,
    timeline: seq<Event>)

  const Empty := Stats(map[], [], map[], [], map[], map[], [], [])

  predicate Distinct<T(==)>(s: seq<T>) {
    forall i, j :: 0 <= i < j < |s| ==> s[i] != s[j]
  }

  /** Each key order lists the keys of its dict, each once. */
  ghost predicate WellFormed(st: Stats) {
    && Distinct(st.ipOrder) && (forall ip :: ip in st.ipOrder <==> ip in st.ips)
    && Distinct(st.portOrder) && (forall p :: p in st.portOrder <==> p in st.ports)
    && Distinct(st.patternOrder) && (forall d :: d in st.patternOrder <==> d in st.patterns)
  }

  /** The count each dict is ranked by. */
  function IpAttempts(p: IpProfile): nat { p.attempts }

  function PortAttempts(q: PortProfile): nat { q.attempts }

  function Count(n: nat): nat { n }

  /** The 24 hours of the day in ascending order. */
  const AllHours: seq<Hour> := seq(24, h requires 0 <= h < 24 => h)

  lemma AllHoursFacts()
    ensures Distinct(AllHours)
    ensures forall h: Hour :: h in AllHours
  {
    forall h: Hour ensures h in AllHours {
      assert AllHours[h] == h;
    }
  }

  /** The payload key of a record: its stripped `data`. */
  function Payload(r: Record): string {
    Text.Strip(r.data)
  }

  /** `d[k] = d.get(k, 0) + 1`. */
  function Bump<K>(d: map<K, nat>, k: K): map<K, nat> {
    d[k := (if k in d then d[k] else 0) + 1]
  }

  /** The key order of a dict after `k` has been stored in it. */
  function Remember<K, V>(order: seq<K>, d: map<K, V>, k: K): seq<K> {
    if k in d then order else order + [k]
  }

  /** The IP profile update of log_analyzer.py:25-39. */
  function TouchIp(ips: map<string, IpProfile>, r: Record): map<string, IpProfile> {
    var p := if r.ip in ips then ips[r.ip] else IpProfile(0, r.timestamp, r.timestamp, {}, {});
    ips[r.ip := IpProfile(p.attempts + 1, p.firstSeen, r.timestamp, p.ports + {r.port}, p.payloads + {Payload(r)})]
  }

  /** The port profile update of log_analyzer.py:46-54. */
  function TouchPort(ports: map<int, PortProfile>, r: Record): map<int, PortProfile> {
    var q := if r.port in ports then ports[r.port] else PortProfile(0, {}, {});
    ports[r.port := PortProfile(q.attempts + 1, q.ips + {r.ip}, q.payloads + {Payload(r)})]
  }

  /** What one valid record does to the aggregates (log_analyzer.py:24-65). */
  function Absorb(st: Stats, r: Record): Stats {
    var payload := Payload(r);
    Stats(
      TouchIp(st.ips, r),
      Remember(st.ipOrder, st.ips, r.ip),
      TouchPort(st.ports, r),
      Remember(st.portOrder, st.ports, r.port),
      Bump(st.hourly, r.hour),
      if payload == "" then st.patterns else Bump(st.patterns, payload),
      if payload == "" then st.patternOrder else Remember(st.patternOrder, st.patterns, payload),
      st.timeline + [Event(r.timestamp, r.ip, r.port)])
  }

  /**
   * The loop of log_analyzer.py:15-68 as a fold over the lines: skipped lines
   * change nothing, the first uncaught error ends the analysis.
   */
  function Ingest(lines: seq<Line>): Result<Stats, Fatal> {
    if lines == [] then Success(Empty)
    else
      match Ingest(lines[..|lines| - 1])
      case Failure(e) => Failure(e)
      case Success(st) =>
        match lines[|lines| - 1]
        case Valid(r) => Success(Absorb(st, r))
        case Skipped => Success(st)
        case Aborts(e) => Failure(e)
  }

  /** Once the analysis has failed, later lines do not matter. */
  lemma {:induction false} FailureIsFinal(lines: seq<Line>, n: nat)
    requires n <= |lines| && Ingest(lines[..n]).Failure?
    ensures Ingest(lines) == Ingest(lines[..n])
    decreases |lines|
  {
    if n < |lines| {
      var init := lines[..|lines| - 1];
      assert init[..n] == lines[..n];
      FailureIsFinal(init, n);
    } else {
      assert lines[..n] == lines;
    }
  }

  /** One more line, seen from the fold. */
  lemma IngestStep(lines: seq<Line>, i: nat)
    requires i < |lines| && Ingest(lines[..i]).Success?
    ensures Ingest(lines[..i + 1]) == match lines[i]
                                      case Valid(r) => Success(Absorb(Ingest(lines[..i]).value, r))
                                      case Skipped => Ingest(lines[..i])
                                      case Aborts(e) => Failure(e)
  {
    assert lines[..i + 1][..i] == lines[..i];
  }

  /**
   * The body of the loop for one valid record (log_analyzer.py:24-65),
   * updating the dicts in place as the source does.
   */
  method Tally(st: Stats, rec: Record) returns (after: Stats)
    ensures after == Absorb(st, rec)
  {
    var ipAnalysis, ipOrder, portAnalysis, portOrder := st.ips, st.ipOrder, st.ports, st.portOrder;
    var hourlyAttacks, dataPatterns, patternOrder, attackTimeline := st.hourly, st.patterns, st.patternOrder, st.timeline;
    var ip, port, payload := rec.ip, rec.port, Text.Strip(rec.data);

    if ip !in ipAnalysis {
      ipAnalysis := ipAnalysis[ip := IpProfile(0, rec.timestamp, rec.timestamp, {}, {})];
      ipOrder := ipOrder + [ip];
    }
    var profile := ipAnalysis[ip];
    ghost var grown := ipAnalysis;
    ipAnalysis := ipAnalysis[ip := profile.(attempts := profile.attempts + 1,
                                            lastSeen := rec.timestamp,
                                            ports := profile.ports + {port},
                                            payloads := profile.payloads + {payload})];
    assert ipAnalysis == st.ips[ip := ipAnalysis[ip]] by {
      assert ipAnalysis == grown[ip := ipAnalysis[ip]];
    }

    hourlyAttacks := Bump(hourlyAttacks, rec.hour);

    if port !in portAnalysis {
      portAnalysis := portAnalysis[port := PortProfile(0, {}, {})];
      portOrder := portOrder + [port];
    }
    var target := portAnalysis[port];
    ghost var created := portAnalysis;
    portAnalysis := portAnalysis[port := target.(attempts := target.attempts + 1,
                                                 ips := target.ips + {ip},
                                                 payloads := target.payloads + {payload})];
    assert portAnalysis == st.ports[port := portAnalysis[port]] by {
      assert portAnalysis == created[port := portAnalysis[port]];
    }

    if payload != "" {
      patternOrder := Remember(patternOrder, dataPatterns, payload);
      dataPatterns := Bump(dataPatterns, payload);
    }

    attackTimeline := attackTimeline + [Event(rec.timestamp, ip, port)];

    return Stats(ipAnalysis, ipOrder, portAnalysis, portOrder,
                 hourlyAttacks, dataPatterns, patternOrder, attackTimeline);
  }

  /**
   * The aggregation loop of log_analyzer.py:15-68: it computes exactly the
   * fold `Ingest`, stopping at the first line whose error is not caught.
   */
  method Aggregate(lines: seq<Line>) returns (result: Result<Stats, Fatal>)
    ensures result == Ingest(lines)
  {
    var stats := Empty;
    var i := 0;
    while i < |lines|
      invariant i <= |lines|
      invariant Ingest(lines[..i]) == Success(stats)
    {
      IngestStep(lines, i);
      match lines[i] {
        case Skipped =>
        case Aborts(reason) =>
          FailureIsFinal(lines, i + 1);
          return Failure(reason);
        case Valid(rec) =>
          stats := Tally(stats, rec);
      }
      i := i + 1;
    }
    assert lines[..i] == lines;
    return Success(stats);
  }
}
