/**
 * The per-connection behaviour of the honeypot (honeypot.py:13-61): the
 * constructor's port default and log file name, `log_activity`, and
 * `handle_connection`, which sends the port's service banner if the port
 * has one, then records every chunk the client sends and answers it with a
 * fixed rejection, until the client stops, and closes the socket on the way
 * out.
 *
 * The client is a script of arrivals: what the peer sends, in order. A
 * `recv(1024)` hands out at most 1024 bytes of the next arrival; an empty
 * arrival is the end of the stream (`recv` returns `b""`), a reset makes
 * `recv` raise. When the script runs out the handler is blocked in `recv`.
 */
module Capture {
  import opened Wrappers

  type Byte = b: int | 0 <= b < 256

  /** `recv(1024)` (honeypot.py:49). */
  const ChunkSize := 1024

  /** The ports monitored when none are given (honeypot.py:16). */
  const DefaultPorts: seq<int> := [21, 22, 80, 443]

  /** The address the listeners bind to when `bind_ip` is not given (honeypot.py:14). */
  const DefaultBindIp: string := "0.0.0.0"

  /** `LOG_DIR` (honeypot.py:10). */
  const LogDir := "honeypot_logs"

  const Rejection := "Command not recognized.\r\n"
  const FtpBanner := "220 FTP server ready\r\n"
  const SshBanner := "SSH-2.0-OpenSSH_8.2p1 Ubuntu-4ubuntu0.1\r\n"
  const HttpBanner := "HTTP/1.1 200 OK\r\nServer: Apache/2.4.41 (Ubuntu)\r\n\r\n"

  /** The keys of the service banner table (honeypot.py:35-40). */
  const BannerPorts: set<int> := {21, 22, 80, 443}

  /** The service banner table of honeypot.py:35-40. */
  function Banner(port: int): (b: Option<string>)
    ensures b.Some? <==> port in BannerPorts
  {
    if port == 21 then Some(FtpBanner)
    else if port == 22 then Some(SshBanner)
    else if port == 80 || port == 443 then Some(HttpBanner)
    else None
  }

  /** The text sent first on `port`, if the port has a banner. */
  function BannerSent(port: int): seq<string> {
    match Banner(port)
    case Some(text) => [text]
    case None => []
  }

  // ---------------------------------------------------------------------
  // The client socket
  // ---------------------------------------------------------------------

  /** What the peer sends next: some bytes (none: end of stream), or a reset. */
  datatype Arrival = Data(bytes: seq<Byte>) | Reset

  /** The outcome of one `recv`: the bytes read, an exception, or no return yet. */
  datatype Received = Got(bytes: seq<Byte>) | Failed | Waiting

  /** An upper bound on the `recv` calls the script can still answer. */
  function RecvBound(script: seq<Arrival>): nat {
    if script == [] then 0
    else (match script[0] case Data(b) => |b| + 1 case Reset => 1) + RecvBound(script[1..])
  }

  /**
   * One `recv(n)` against the script: the result and the script left.
   * An arrival longer than `n` is cut; the rest is read by the next call.
   */
  function RecvStep(script: seq<Arrival>, n: nat): (step: (Received, seq<Arrival>))
    requires n > 0
    ensures step.0.Got? ==> |step.0.bytes| <= n
    ensures step.0.Got? && step.0.bytes != [] ==> RecvBound(step.1) < RecvBound(script)
  {
    if script == [] then (Waiting, script)
    else match script[0]
      case Reset => (Failed, script)
      case Data(b) =>
        if |b| <= n then (Got(b), script[1..])
        else (Got(b[..n]), [Data(b[n..])] + script[1..])
  }

  class ClientSocket {
    /** What the peer has yet to send. */
    var script: seq<Arrival>
    /** The messages sent, one per `send` call, as text: all are ASCII, one byte per character. */
    var sent: seq<string>
    var closed: bool

    constructor (script: seq<Arrival>)
      ensures this.script == script && sent == [] && !closed
    {
      this.script := script;
      sent := [];
      closed := false;
    }

    method Send(message: string)
      modifies this
      ensures sent == old(sent) + [message]
      ensures script == old(script) && closed == old(closed)
    {
      sent := sent + [message];
    }

    method Recv(n: nat) returns (r: Received)
      requires n > 0
      modifies this
      ensures r == RecvStep(old(script), n).0 && script == RecvStep(old(script), n).1
      ensures sent == old(sent) && closed == old(closed)
    {
      var step := RecvStep(script, n);
      r, script := step.0, step.1;
    }

    method Close()
      modifies this
      ensures closed
      ensures script == old(script) && sent == old(sent)
    {
      closed := true;
    }
  }

  // ---------------------------------------------------------------------
  // The log records and the log file name
  // ---------------------------------------------------------------------

  /** The JSON object of honeypot.py:22-27. */
  datatype ActivityRecord = ActivityRecord(timestamp: string, remoteIp: string, port: int, data: string)

  datatype Date = Date(year: int, month: int, day: int)

  predicate LeapYear(y: int) {
    y % 4 == 0 && (y % 100 != 0 || y % 400 == 0)
  }

  function DaysInMonth(y: int, m: int): int {
    if m == 2 then (if LeapYear(y) then 29 else 28)
    else if m == 4 || m == 6 || m == 9 || m == 11 then 30
    else 31
  }

  /** A calendar date whose year `strftime('%Y')` writes with four digits. */
  predicate ValidDate(d: Date) {
    1000 <= d.year <= 9999 && 1 <= d.month <= 12 && 1 <= d.day <= DaysInMonth(d.year, d.month)
  }

  function Pow10(w: nat): nat {
    if w == 0 then 1 else 10 * Pow10(w - 1)
  }

  predicate IsDigit(c: char) {
    '0' <= c <= '9'
  }

  /** `n` in decimal, padded with zeros to `w` digits. */
  function Digits(n: nat, w: nat): (s: string)
    requires n < Pow10(w)
    ensures |s| == w && forall i :: 0 <= i < w ==> IsDigit(s[i])
  {
    if w == 0 then "" else Digits(n / 10, w - 1) + [('0' as int + n % 10) as char]
  }

  function DigitValue(c: char): nat
    requires IsDigit(c)
  {
    c as int - '0' as int
  }

  /** The number a string of decimal digits denotes. */
  function DigitsValue(s: string): nat
    requires forall i :: 0 <= i < |s| ==> IsDigit(s[i])
  {
    if s == [] then 0 else 10 * DigitsValue(s[..|s| - 1]) + DigitValue(s[|s| - 1])
  }

  lemma {:induction false} DigitsRoundTrip(n: nat, w: nat)
    requires n < Pow10(w)
    ensures DigitsValue(Digits(n, w)) == n
  {
    if w > 0 {
      DigitsRoundTrip(n / 10, w - 1);
      var s := Digits(n, w);
      assert s[..|s| - 1] == Digits(n / 10, w - 1);
    }
  }

  /** `strftime('%Y%m%d')`. */
  function DateStamp(d: Date): (s: string)
    requires ValidDate(d)
    ensures |s| == 8 && forall i :: 0 <= i < 8 ==> IsDigit(s[i])
  {
    Digits(d.year, 4) + Digits(d.month, 2) + Digits(d.day, 2)
  }

  /** Reads a date back from its stamp. */
  function ParseDateStamp(s: string): Date
    requires |s| == 8 && forall i :: 0 <= i < 8 ==> IsDigit(s[i])
  {
    Date(DigitsValue(s[..4]), DigitsValue(s[4..6]), DigitsValue(s[6..]))
  }

  /** The stamp determines the date. */
  lemma DateStampRoundTrip(d: Date)
    requires ValidDate(d)
    ensures ParseDateStamp(DateStamp(d)) == d
  {
    var s := DateStamp(d);
    assert s[..4] == Digits(d.year, 4);
    assert s[4..6] == Digits(d.month, 2);
    assert s[6..] == Digits(d.day, 2);
    DigitsRoundTrip(d.year, 4);
    DigitsRoundTrip(d.month, 2);
    DigitsRoundTrip(d.day, 2);
  }

  /** `LOG_DIR / f"honeypot_{stamp}.json"` (honeypot.py:18). */
  function LogFileName(today: Date): (name: string)
    requires ValidDate(today)
    ensures |name| == |LogDir| + 23
    ensures name[..|LogDir|] == LogDir && name[|name| - 5..] == ".json"
  {
    LogDir + "/honeypot_" + DateStamp(today) + ".json"
  }

  /** The file name tells the day the honeypot was started. */
  lemma LogFileNameDay(today: Date)
    requires ValidDate(today)
    ensures var name := LogFileName(today);
            ParseDateStamp(name[|LogDir| + 10..|LogDir| + 18]) == today
  {
    var name := LogFileName(today);
    assert name[|LogDir| + 10..|LogDir| + 18] == DateStamp(today);
    DateStampRoundTrip(today);
  }

  /** `ports or [21, 22, 80, 443]`: `None` and the empty list both give the defaults. */
  function MonitoredPorts(ports: Option<seq<int>>): (r: seq<int>)
    ensures r != []
    ensures ports.Some? && ports.value != [] ==> r == ports.value
    ensures ports.None? || ports.value == [] ==> r == DefaultPorts
  {
    match ports
    case Some(given) => if given != [] then given else DefaultPorts
    case None => DefaultPorts
  }

  // ---------------------------------------------------------------------
  // What one connection does, as a trace
  // ---------------------------------------------------------------------

  /**
   * What the capture loop does with a script: the messages it sends, the
   * records it appends, the chunks it reads, whether it leaves the loop
   * (end of stream or exception) rather than block, and the script left.
   */
  datatype Trace = Trace(sent: seq<string>, records: seq<ActivityRecord>, chunks: seq<seq<Byte>>, stops: bool, rest: seq<Arrival>)

  /**
   * The loop of honeypot.py:48-56 from the `k`-th record on; `clock(k)` is
   * the time `log_activity` reads for the `k`-th record of the connection.
   */
  function Capture(script: seq<Arrival>, port: int, remoteIp: string, decode: seq<Byte> -> string,
                   clock: nat -> string, k: nat): Trace
    decreases RecvBound(script)
  {
    var step := RecvStep(script, ChunkSize);
    match step.0
    case Waiting => Trace([], [], [], false, step.1)
    case Failed => Trace([], [], [], true, step.1)
    case Got(chunk) =>
      if chunk == [] then Trace([], [], [], true, step.1)
      else
        var t := Capture(step.1, port, remoteIp, decode, clock, k + 1);
        Trace([Rejection] + t.sent,
              [ActivityRecord(clock(k), remoteIp, port, decode(chunk))] + t.records,
              [chunk] + t.chunks, t.stops, t.rest)
  }

  /** The whole connection: the banner, then the capture loop. */
  function Session(script: seq<Arrival>, port: int, remoteIp: string, decode: seq<Byte> -> string,
                   clock: nat -> string): Trace
  {
    var t := Capture(script, port, remoteIp, decode, clock, 0);
    t.(sent := BannerSent(port) + t.sent)
  }

  /** `whole` is what has been done so far followed by the trace `t` of the rest. */
  ghost predicate Continues(whole: Trace, doneSent: seq<string>, doneRecords: seq<ActivityRecord>,
                            chunks: seq<seq<Byte>>, t: Trace) {
    whole == Trace(doneSent + t.sent, doneRecords + t.records, chunks + t.chunks, t.stops, t.rest)
  }

  /** One pass of the capture loop that reads a non-empty chunk. */
  lemma CaptureStep(script: seq<Arrival>, port: int, remoteIp: string, decode: seq<Byte> -> string,
                    clock: nat -> string, k: nat, whole: Trace,
                    doneSent: seq<string>, doneRecords: seq<ActivityRecord>, chunks: seq<seq<Byte>>)
    requires Continues(whole, doneSent, doneRecords, chunks, Capture(script, port, remoteIp, decode, clock, k))
    requires RecvStep(script, ChunkSize).0.Got? && RecvStep(script, ChunkSize).0.bytes != []
    ensures var chunk := RecvStep(script, ChunkSize).0.bytes;
            Continues(whole, doneSent + [Rejection],
                      doneRecords + [ActivityRecord(clock(k), remoteIp, port, decode(chunk))],
                      chunks + [chunk],
                      Capture(RecvStep(script, ChunkSize).1, port, remoteIp, decode, clock, k + 1))
  {
  }

  /** A pass of the capture loop that leaves it, or finds the script exhausted. */
  lemma CaptureEnds(script: seq<Arrival>, port: int, remoteIp: string, decode: seq<Byte> -> string,
                    clock: nat -> string, k: nat)
    requires !(RecvStep(script, ChunkSize).0.Got? && RecvStep(script, ChunkSize).0.bytes != [])
    ensures Capture(script, port, remoteIp, decode, clock, k) ==
              Trace([], [], [], !RecvStep(script, ChunkSize).0.Waiting?, RecvStep(script, ChunkSize).1)
  {
  }

  // ---------------------------------------------------------------------
  // What the trace says
  // ---------------------------------------------------------------------

  /** The script holds an end of stream or a reset. */
  predicate HasStop(script: seq<Arrival>) {
    exists i :: 0 <= i < |script| && (script[i] == Reset || script[i] == Data([]))
  }

  /** Non-empty data is not a stop: the stops are those of what follows. */
  lemma HasStopPastData(b: seq<Byte>, rest: seq<Arrival>)
    requires b != []
    ensures HasStop([Data(b)] + rest) <==> HasStop(rest)
  {
    var script := [Data(b)] + rest;
    if HasStop(script) {
      var i :| 0 <= i < |script| && (script[i] == Reset || script[i] == Data([]));
      assert i > 0 && rest[i - 1] == script[i];
    }
    if HasStop(rest) {
      var i :| 0 <= i < |rest| && (rest[i] == Reset || rest[i] == Data([]));
      assert script[i + 1] == rest[i];
    }
  }

  /** The bytes the peer sends before its first end of stream or reset. */
  function Delivered(script: seq<Arrival>): seq<Byte> {
    if script == [] then []
    else match script[0]
      case Reset => []
      case Data(b) => if b == [] then [] else b + Delivered(script[1..])
  }

  function Flatten(chunks: seq<seq<Byte>>): seq<Byte> {
    if chunks == [] then [] else chunks[0] + Flatten(chunks[1..])
  }

  /** One rejection per chunk read. */
  lemma {:induction false} CaptureSendsRejections(script: seq<Arrival>, port: int, remoteIp: string,
                                                  decode: seq<Byte> -> string, clock: nat -> string, k: nat)
    ensures var t := Capture(script, port, remoteIp, decode, clock, k);
            && |t.sent| == |t.records| == |t.chunks|
            && (forall i :: 0 <= i < |t.sent| ==> t.sent[i] == Rejection)
    decreases RecvBound(script)
  {
    var step := RecvStep(script, ChunkSize);
    if step.0.Got? && step.0.bytes != [] {
      CaptureSendsRejections(step.1, port, remoteIp, decode, clock, k + 1);
    }
  }

  /** The `i`-th record logs the `i`-th chunk, read with 1 to 1024 bytes. */
  lemma {:induction false} CaptureRecordAt(script: seq<Arrival>, port: int, remoteIp: string,
                                           decode: seq<Byte> -> string, clock: nat -> string, k: nat, i: nat)
    requires i < |Capture(script, port, remoteIp, decode, clock, k).records|
    ensures var t := Capture(script, port, remoteIp, decode, clock, k);
            && i < |t.chunks|
            && t.records[i] == ActivityRecord(clock(k + i), remoteIp, port, decode(t.chunks[i]))
            && 1 <= |t.chunks[i]| <= ChunkSize
    decreases RecvBound(script)
  {
    if i > 0 {
      CaptureRecordAt(RecvStep(script, ChunkSize).1, port, remoteIp, decode, clock, k + 1, i - 1);
    }
  }

  /**
   * Each chunk read gives one reply and one record, in the order read: the
   * reply is the fixed rejection, and the record carries the handler's port
   * and remote IP and the decoded chunk; each chunk holds 1 to 1024 bytes.
   */
  lemma CaptureShape(script: seq<Arrival>, port: int, remoteIp: string, decode: seq<Byte> -> string,
                     clock: nat -> string, k: nat)
    ensures var t := Capture(script, port, remoteIp, decode, clock, k);
            && |t.sent| == |t.records| == |t.chunks|
            && (forall i :: 0 <= i < |t.sent| ==> t.sent[i] == Rejection)
            && (forall i :: 0 <= i < |t.records| ==>
                  t.records[i] == ActivityRecord(clock(k + i), remoteIp, port, decode(t.chunks[i])))
            && (forall i :: 0 <= i < |t.chunks| ==> 1 <= |t.chunks[i]| <= ChunkSize)
  {
    var t := Capture(script, port, remoteIp, decode, clock, k);
    CaptureSendsRejections(script, port, remoteIp, decode, clock, k);
    forall i | 0 <= i < |t.records|
      ensures t.records[i] == ActivityRecord(clock(k + i), remoteIp, port, decode(t.chunks[i]))
      ensures 1 <= |t.chunks[i]| <= ChunkSize
    {
      CaptureRecordAt(script, port, remoteIp, decode, clock, k, i);
    }
  }

  /** The chunks read, put together, are exactly the bytes sent before the first stop. */
  lemma {:induction false} CaptureReadsAll(script: seq<Arrival>, port: int, remoteIp: string, decode: seq<Byte> -> string,
                                           clock: nat -> string, k: nat)
    ensures Flatten(Capture(script, port, remoteIp, decode, clock, k).chunks) == Delivered(script)
    decreases RecvBound(script)
  {
    var step := RecvStep(script, ChunkSize);
    if step.0.Got? && step.0.bytes != [] {
      CaptureReadsAll(step.1, port, remoteIp, decode, clock, k + 1);
      var b := script[0].bytes;
      if |b| > ChunkSize {
        assert Delivered(step.1) == b[ChunkSize..] + Delivered(script[1..]);
        assert b == b[..ChunkSize] + b[ChunkSize..];
      }
    }
  }

  /**
   * The loop is left exactly when the script holds an end of stream or a
   * reset; otherwise the handler waits in `recv` with the whole script read.
   */
  lemma {:induction false} CaptureStopsIffStop(script: seq<Arrival>, port: int, remoteIp: string, decode: seq<Byte> -> string,
                                               clock: nat -> string, k: nat)
    ensures var t := Capture(script, port, remoteIp, decode, clock, k);
            && (t.stops <==> HasStop(script))
            && (!t.stops ==> t.rest == [])
    decreases RecvBound(script)
  {
    var step := RecvStep(script, ChunkSize);
    if step.0.Got? && step.0.bytes != [] {
      CaptureStopsIffStop(step.1, port, remoteIp, decode, clock, k + 1);
      var b := script[0].bytes;
      assert script == [Data(b)] + script[1..];
      HasStopPastData(b, script[1..]);
      if |b| > ChunkSize {
        HasStopPastData(b[ChunkSize..], script[1..]);
      }
    } else if !step.0.Waiting? {
      assert script[0] == Reset || script[0] == Data([]);
    }
  }

  /** Whatever the peer sends after an end of stream or a reset produces no reply and no record. */
  lemma {:induction false} CaptureIgnoresAfterStop(script: seq<Arrival>, more: seq<Arrival>, port: int, remoteIp: string,
                                                   decode: seq<Byte> -> string, clock: nat -> string, k: nat)
    requires HasStop(script)
    ensures var t, u := Capture(script, port, remoteIp, decode, clock, k), Capture(script + more, port, remoteIp, decode, clock, k);
            u.sent == t.sent && u.records == t.records && u.chunks == t.chunks && u.stops && t.stops
    decreases RecvBound(script)
  {
    var i :| 0 <= i < |script| && (script[i] == Reset || script[i] == Data([]));
    var step, step' := RecvStep(script, ChunkSize), RecvStep(script + more, ChunkSize);
    assert (script + more)[0] == script[0];
    if step.0.Got? && step.0.bytes != [] {
      assert i > 0;
      var b := script[0].bytes;
      if |b| > ChunkSize {
        assert step'.1 == step.1 + more;
        assert step.1[i] == script[i];
      } else {
        assert step'.1 == step.1 + more;
        assert step.1[i - 1] == script[i];
      }
      CaptureIgnoresAfterStop(step.1, more, port, remoteIp, decode, clock, k + 1);
    }
  }

  /**
   * A session sends the port's banner first, exactly when the port has one,
   * and then one rejection per record.
   */
  lemma SessionBanner(script: seq<Arrival>, port: int, remoteIp: string, decode: seq<Byte> -> string, clock: nat -> string)
    ensures var s := Session(script, port, remoteIp, decode, clock);
            && |s.sent| == |s.records| + (if port in BannerPorts then 1 else 0)
            && (port in BannerPorts ==> s.sent[0] == Banner(port).value)
            && (forall i :: (if port in BannerPorts then 1 else 0) <= i < |s.sent| ==> s.sent[i] == Rejection)
  {
    CaptureShape(script, port, remoteIp, decode, clock, 0);
  }

  // ---------------------------------------------------------------------
  // The honeypot
  // ---------------------------------------------------------------------

  class Honeypot {
    var bindIp: string
    var ports: seq<int>
    var logFile: string
    /** The records appended to the log file by this honeypot, in order. */
    var records: seq<ActivityRecord>

    /** `Honeypot(bind_ip, ports)` started on `today` (honeypot.py:14-18). */
    constructor (bindIp: Option<string>, ports: Option<seq<int>>, today: Date)
      requires ValidDate(today)
      ensures bindIp.None? ==> this.bindIp == DefaultBindIp
      ensures bindIp.Some? ==> this.bindIp == bindIp.value
      ensures this.ports == MonitoredPorts(ports)
      ensures logFile == LogFileName(today) && records == []
    {
      this.bindIp := if bindIp.Some? then bindIp.value else DefaultBindIp;
      // `ports or [...]`: `None` and `[]` are both false
      var given := if ports.Some? then ports.value else [];
      this.ports := if given != [] then given else DefaultPorts;
      logFile := LogFileName(today);
      records := [];
    }

    /**
     * `log_activity(port, remote_ip, data)` at time `stamp`: appends one
     * record with the decoded bytes (honeypot.py:20-31).
     */
    method LogActivity(port: int, remoteIp: string, data: seq<Byte>, decode: seq<Byte> -> string, stamp: string)
      modifies this
      ensures records == old(records) + [ActivityRecord(stamp, remoteIp, port, decode(data))]
      ensures bindIp == old(bindIp) && ports == old(ports) && logFile == old(logFile)
    {
      var activity := ActivityRecord(stamp, remoteIp, port, decode(data));
      records := records + [activity];
    }

    /**
     * `handle_connection(client_socket, remote_ip, port)` (honeypot.py:33-61).
     * Returns false when the script runs out while the handler waits in
     * `recv`: it has not returned, and the socket is still open.
     */
    method HandleConnection(sock: ClientSocket, remoteIp: string, port: int,
                            decode: seq<Byte> -> string, clock: nat -> string) returns (finished: bool)
      requires !sock.closed
      modifies this, sock
      ensures var t := Session(old(sock.script), port, remoteIp, decode, clock);
              && sock.sent == old(sock.sent) + t.sent
              && records == old(records) + t.records
              && sock.script == t.rest
              && finished == t.stops
              && sock.closed == t.stops
      ensures bindIp == old(bindIp) && ports == old(ports) && logFile == old(logFile)
    {
      var banner := Banner(port);
      if banner.Some? {
        sock.Send(banner.value);
      }
      finished := CaptureLoop(sock, remoteIp, port, decode, clock);
      if finished {
        sock.Close();
      }
    }

    /** The receive loop of honeypot.py:48-56. */
    method CaptureLoop(sock: ClientSocket, remoteIp: string, port: int,
                       decode: seq<Byte> -> string, clock: nat -> string) returns (stops: bool)
      modifies this, sock
      ensures var t := Capture(old(sock.script), port, remoteIp, decode, clock, 0);
              && sock.sent == old(sock.sent) + t.sent
              && records == old(records) + t.records
              && sock.script == t.rest
              && stops == t.stops
      ensures sock.closed == old(sock.closed)
      ensures bindIp == old(bindIp) && ports == old(ports) && logFile == old(logFile)
    {
      ghost var whole := Capture(sock.script, port, remoteIp, decode, clock, 0);
      // what the loop has sent, appended and read so far
      ghost var doneSent: seq<string>, doneRecords: seq<ActivityRecord>, chunks: seq<seq<Byte>> := [], [], [];
      var k := 0;
      while true
        invariant sock.closed == old(sock.closed)
        invariant sock.sent == old(sock.sent) + doneSent
        invariant records == old(records) + doneRecords
        invariant bindIp == old(bindIp) && ports == old(ports) && logFile == old(logFile)
        invariant Continues(whole, doneSent, doneRecords, chunks, Capture(sock.script, port, remoteIp, decode, clock, k))
        decreases RecvBound(sock.script)
      {
        ghost var before := sock.script;
        var data := sock.Recv(ChunkSize);
        if data.Got? && data.bytes != [] {
          var chunk := data.bytes;
          LogActivity(port, remoteIp, chunk, decode, clock(k));
          sock.Send(Rejection);
          CaptureStep(before, port, remoteIp, decode, clock, k, whole, doneSent, doneRecords, chunks);
          doneSent, doneRecords, chunks := doneSent + [Rejection],
            doneRecords + [ActivityRecord(clock(k), remoteIp, port, decode(chunk))], chunks + [chunk];
          k := k + 1;
        } else {
          // end of stream, an exception, or a `recv` that has not returned
          CaptureEnds(before, port, remoteIp, decode, clock, k);
          return !data.Waiting?;
        }
      }
    }
  }
}
