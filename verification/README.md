# Honeypot capture and log analysis, modelled in Dafny

The honeypot listens on a few TCP ports. For each connection it sends the
port's service banner, if the port has one. It then writes one JSON record per
chunk it receives to a log file named for the day the honeypot started, and
answers each chunk with a fixed rejection. It stops at end of
stream or on an error, and always closes the socket. The log analyzer reads
such a file line by line and folds the valid records into four aggregates:
- per-IP profiles;
- per-port profiles;
- an hour-of-day histogram;
- a payload frequency table.

It then prints a five-section report:
1. the ten most active IPs;
2. every port;
3. the hourly counts;
4. a sophistication score per listed IP;
5. the ten most common payloads.

This project models both halves and proves what they promise.

Modules:
- `Text` (text.dfy) is Python's `str.strip()` over the exact `str.isspace()` character set.
- `Analyzer` (analyzer.dfy) holds the parsed records, the aggregates, the one-record update `Absorb` and the whole-file fold `Ingest`. It also holds the imperative loop `Aggregate` with its loop body `Tally`, proved equal to the fold.
  - The three ranked dicts (`ip_analysis`, `port_analysis`, `data_patterns`) are each a `map` plus a `seq` of its keys in insertion order, because dict order decides how ties leave the stable sort. `hourly_attacks` is a plain `map`, because only its sorted keys are read.
  - Lines arrive already classified. A line is `Valid(record)`; `Skipped` when `json.loads` or a field read raises `JSONDecodeError` or `KeyError`; or `Aborts(reason)` for an error the `except` clause does not catch. Such an error ends the whole analysis.
- `AnalyzerFacts` (analyzer_facts.dfy) states what every aggregate means. Each is compared with reference definitions that do not mention the fold: the valid records in file order, and the records selected by IP, port, hour or payload.
- `Conservation` (conservation.dfy) shows that each valid record is counted exactly once by the IP, port and hour aggregates, and once by the payload table unless its data strips to the empty string.
- `Ranking` (ranking.dfy) is `sorted(..., key=count, reverse=True)`, a stable descending sort, and the `[:n]` cut.
- `Report` (report.dfy) holds the five report sections as values, with the truncation rule and the score in integer tenths.
- `Analysis` (analysis.dfy) is `analyze_logs` end to end, plus what the report says about the records in the file.
- `Capture` (honeypot.py) is modelled in honeypot.dfy. It has two classes:
  - `ClientSocket` is driven by a script of what the peer sends;
  - `Honeypot` holds the port default, the log file name, `log_activity` and `handle_connection`.

  The pure `Capture`/`Session` trace functions specify the handler's loop.
- `RecordStore` (record_store.dfy) shows that the log file holds one serialised record per line.

Tie order follows the code. One might expect IPs with equal attempts to
be ranked by earliest first-seen time. The code sorts the dict items
stably, so ties come out in dict insertion order: the order of each IP's
first record in the file. The two orders differ when the file's
timestamps are not in order. `Analysis.IpTiesByFirstRecord` states the
code's order.
Likewise `last_seen` is the time of an IP's last record in file order,
not its latest time. A reported duration can therefore be negative, as
`Analysis.DurationCanBeNegative` shows.

## Model

| member | source | states |
|---|---|---|
| Text.StripSpec | log_analyzer.py:39 | `strip()` keeps a contiguous slice of the text and removes only whitespace around it. The removed margins are all whitespace, and the result neither starts nor ends with whitespace. |
| Text.StripEmptyIffAllSpace | log_analyzer.py:57 | A stripped payload is empty exactly when the data is all whitespace (or empty). |
| Text.StripIdempotent | log_analyzer.py:39 | Stripping a stripped payload changes nothing. |
| Analyzer.Tally | log_analyzer.py:24-65 | The loop body, with its in-place dict updates, yields exactly the one-record update `Absorb`. |
| Analyzer.Aggregate | log_analyzer.py:15-68 | The loop over the lines returns the fold `Ingest`. It skips `JSONDecodeError`/`KeyError` lines and stops with the error of the first line whose error is not caught. |
| Analyzer.FailureIsFinal | log_analyzer.py:67-68 | Once an uncaught error has occurred, no later line changes the outcome. |
| AnalyzerFacts.IngestOutcome | log_analyzer.py:15-68 | The analysis succeeds exactly when no line raises an uncaught error. Its aggregates are then those of the valid records in file order. |
| AnalyzerFacts.IngestFailsAtFirstAbort | log_analyzer.py:17-22 | A failed analysis reports the error of a line before which no line aborts. |
| AnalyzerFacts.SkippedLineChangesNothing | log_analyzer.py:17-22 | Inserting a skipped line anywhere leaves the outcome unchanged. Every field is read before any aggregate is touched. |
| AnalyzerFacts.IpProfileFacts | log_analyzer.py:25-39 | An IP has a profile iff it has a record. `total_attempts` is its number of records. `first_seen`/`last_seen` are the times of its first/last record in file order. The port and payload sets are exactly its records' ports and stripped data, including "". |
| AnalyzerFacts.PortProfileFacts | log_analyzer.py:46-54 | A port has a profile iff some record targets it. It counts those records and collects exactly their IPs and stripped payloads. |
| AnalyzerFacts.HourlyFacts | log_analyzer.py:42-43 | An hour is a key iff some record falls in it, and its count is the number of such records. |
| AnalyzerFacts.PatternFacts | log_analyzer.py:57-58 | A payload is a key iff it is non-empty and some record strips to it. Its count is the number of such records. |
| AnalyzerFacts.TimelineFacts | log_analyzer.py:61-65 | The timeline has one event per valid record, in file order, with that record's time, IP and port. |
| AnalyzerFacts.IpOrderFacts | log_analyzer.py:25-33 | `ip_analysis` lists exactly the IPs that occur, ordered by the position of their first record. |
| AnalyzerFacts.PortOrderFacts | log_analyzer.py:46-51 | `port_analysis` lists exactly the ports that occur, ordered by the position of their first record. |
| AnalyzerFacts.PatternOrderFacts | log_analyzer.py:57-58 | `data_patterns` lists exactly the non-empty payloads that occur, ordered by their first record. |
| AnalyzerFacts.AccumulateWellFormed | log_analyzer.py:6-9 | Each dict's key order lists its keys, each exactly once. |
| Conservation.IpAttemptsConserved | log_analyzer.py:36 | The per-IP attempts sum to the number of valid records. |
| Conservation.PortAttemptsConserved | log_analyzer.py:52 | The per-port attempts sum to the number of valid records. |
| Conservation.HoursConserved | log_analyzer.py:42-43 | The hourly counts over hours 0..23 sum to the number of valid records. |
| Conservation.PatternsConserved | log_analyzer.py:57-58 | The payload counts plus the records with a blank payload make up all valid records. |
| Ranking.SortDescIsSorted | log_analyzer.py:75-77 | The ranking is non-increasing in count. |
| Ranking.SortDescIsPermutation | log_analyzer.py:75-77 | The ranking holds exactly the input entries, with multiplicity. |
| Ranking.SortDescIsStable | log_analyzer.py:75-77 | Restricted to any one count, the ranking lists the entries in input order. |
| Ranking.SortDescKeepsTies | log_analyzer.py:88-90 | Two ranked entries with equal counts appear in the input in the same relative order. |
| Ranking.TakeKeepsHeaviest | log_analyzer.py:113-115 | No entry cut from the top n counts more than any entry kept. |
| Ranking.TakeCutTiesCameLater | log_analyzer.py:75-77 | An entry cut from the top n with the same count as a kept entry comes after it in the input. |
| Ranking.Take | log_analyzer.py:77 | `[:n]` is the prefix of length min(n, len). |
| Report.Truncate | log_analyzer.py:117-118 | A shown payload is at most 53 characters. |
| Report.TruncateShape | log_analyzer.py:117-118 | A payload of up to 50 characters is shown unchanged. A longer one is shown as its first 50 characters plus "...", 53 in all. |
| Report.ScoreTenths | log_analyzer.py:105-108 | The integer score in tenths equals 10 × (0.4 × ports + 0.6 × payloads), computed over exact reals. |
| Report.IpRanking | log_analyzer.py:75-84 | Section 1 has min(10, #IPs) lines, each the attempts, duration and set sizes of a profiled IP, with attempts non-increasing. |
| Report.IpCutKeepsMostActive | log_analyzer.py:75-77 | An IP left out of section 1 has no more attempts than any listed IP. |
| Report.IpCutTiesEnteredLater | log_analyzer.py:75-77 | An IP left out of section 1 with as many attempts as a listed IP entered `ip_analysis` after it. |
| Report.IpTiesKeepOrder | log_analyzer.py:75-77 | Listed IPs with equal attempts keep their `ip_analysis` insertion order. |
| Report.PortRanking | log_analyzer.py:88-95 | Section 2 has one line per port, with its attempts and set sizes, attempts non-increasing. |
| Report.PortsAllListed | log_analyzer.py:88-91 | Every port of `port_analysis` is in section 2. |
| Report.PortTiesKeepOrder | log_analyzer.py:88-90 | Ports with equal attempts keep their `port_analysis` insertion order. |
| Report.HourLinesFacts | log_analyzer.py:99-100 | The hour lines from hour h on list the histogram's keys ≥ h, each once, strictly ascending, with their counts. |
| Report.HourSection | log_analyzer.py:99-100 | Section 3 lists exactly the hours present, strictly ascending, with their counts. |
| Report.ScoreSection | log_analyzer.py:104-109 | Section 4 scores the IPs of section 1 in the same order, as 4 × ports + 6 × payloads tenths. |
| Report.PayloadRanking | log_analyzer.py:113-119 | Section 5 has min(10, #payloads) lines, each a payload's count and its truncated text, counts non-increasing. |
| Report.PayloadCutKeepsMostFrequent | log_analyzer.py:113-115 | A payload left out of section 5 is no more frequent than any listed payload. |
| Report.PayloadCutTiesEnteredLater | log_analyzer.py:113-115 | A payload left out of section 5 that is as frequent as a listed one entered `data_patterns` after it. |
| Report.PayloadTiesKeepOrder | log_analyzer.py:113-115 | Equally frequent listed payloads keep their `data_patterns` insertion order. |
| Analysis.AnalyzeLogs | log_analyzer.py:4-119 | The report exists exactly when no line aborts, and is then the report of the valid records' aggregates. Otherwise the result is the error of the first aborting line. |
| Analysis.IpLinesDescribeRecords | log_analyzer.py:78-84 | Each section-1 line gives its IP's record count, the time from its first to its last record, and the numbers of distinct ports and payloads among its records. |
| Analysis.IpTiesByFirstRecord | log_analyzer.py:75-77 | Listed IPs with equal attempts are ordered by the position of their first record in the file. |
| Analysis.ScoresAtLeastOne | log_analyzer.py:105-108 | Every reported score is at least 1.0. |
| Analysis.PayloadLinesCountRecords | log_analyzer.py:113-116 | Each section-5 payload is non-blank and its count is the number of records that strip to it. |
| Analysis.DurationCanBeNegative | log_analyzer.py:79 | Two records of one IP, the later one earlier in time, give a duration of -2. |
| Capture.Banner | honeypot.py:35-40 | A port has a banner exactly when it is 21, 22, 80 or 443. |
| Capture.MonitoredPorts | honeypot.py:16 | The port list is never empty. A non-empty given list is kept as is; `None` or `[]` gives 21, 22, 80, 443. |
| Capture.Honeypot.constructor | honeypot.py:14-18 | The constructor stores the bind IP, `"0.0.0.0"` when none is given, and the monitored ports. The log file is `honeypot_logs/honeypot_YYYYMMDD.json` for the start date. This honeypot has appended no records yet; the file itself may already hold lines from an earlier run that day, since it is opened for appending. |
| Capture.DateStamp | honeypot.py:18 | `%Y%m%d` is eight decimal digits. |
| Capture.DateStampRoundTrip | honeypot.py:18 | The eight-digit stamp reads back as the date it was made from. |
| Capture.LogFileNameDay | honeypot.py:18 | The log file name starts with the log directory, ends in `.json`, and holds the stamp of the start date. |
| Capture.RecvStep | honeypot.py:49 | `recv(n)` returns at most n bytes. One that returns data leaves less of the script to read. |
| Capture.ClientSocket.Recv | honeypot.py:49 | One `recv` returns at most the next 1024 bytes the peer sent, and leaves the rest pending. It returns `b""` at end of stream and fails on a reset. |
| Capture.Honeypot.LogActivity | honeypot.py:20-31 | Appends exactly one record: the given time, remote IP and port, and the decoded bytes. |
| Capture.Honeypot.CaptureLoop | honeypot.py:48-56 | The receive loop sends, appends and reads exactly what the trace `Capture` says. |
| Capture.Honeypot.HandleConnection | honeypot.py:33-61 | The handler sends the banner, then the loop's replies, and appends the loop's records. It closes the socket exactly when the loop is left, by end of stream or exception. |
| Capture.CaptureShape | honeypot.py:48-56 | Each chunk read gives one record and one rejection, in chunk order: record k and rejection k belong to chunk k. The records and the replies are two separate sequences, so their interleaving is not stated. A record carries the handler's port and IP unchanged, the k-th clock reading and the decoded chunk. Each chunk has 1 to 1024 bytes. |
| Capture.CaptureReadsAll | honeypot.py:49-53 | The chunks read, concatenated, are exactly the bytes the peer sent before its first end of stream or reset. |
| Capture.CaptureStopsIffStop | honeypot.py:48-61 | The loop is left exactly when the peer ends the stream or resets. Otherwise the handler is still waiting in `recv` with everything read. |
| Capture.CaptureIgnoresAfterStop | honeypot.py:50-51 | Whatever the peer sends after an end of stream or reset produces no reply and no record. |
| Capture.SessionBanner | honeypot.py:42-56 | The banner is sent first exactly when the port has one. Every later message is the rejection, one per record. |
| RecordStore.LogTextLines | honeypot.py:29-31 | Read back line by line, the log file yields one serialised record per line, in append order, when no serialisation contains `\n` or `\r`. |
| RecordStore.AppendAddsOneLine | honeypot.py:29-31 | One more append adds exactly one line, holding the new record. |
| RecordStore.LinesAfterBreak | log_analyzer.py:15-16 | Reading the file in text mode ends a line at `\n`, at `\r\n` or at a lone `\r`: a line without a break, then any of these, reads back as that line followed by the lines of the rest. |

## Left out

- Parsing is not modelled:
  - `json.loads` and `datetime.fromisoformat` are replaced by a pre-classified `Line`;
  - a timestamp is an abstract integer instant together with its hour;
  - `json.dump` is a parameter `dump`. `RecordStore` assumes it writes no raw `\n` or `\r`, since `json.dump` escapes both;
  - UTF-8 decoding with `errors='ignore'` is a parameter `decode`.
- The clock is a parameter. `datetime.now()` at construction is the `today` argument. In `log_activity` it is `clock(k)`, the reading taken for the k-th record of the connection.
- Capture.Honeypot.constructor: dates are restricted to years 1000-9999, where `strftime('%Y')` writes four digits.
- Analyzer.Fatal: three reasons are named, the errors the field reads and `data.strip()` can raise. Every other exception that ends the analysis is the one reason `OtherError`, such as a decoding error while the file is read or a `RecursionError` in `json.loads`. The model does not track its type.
- Analyzer.Record: an IP is a string and a port an integer. Other JSON values there, including unhashable ones that raise `TypeError`, are not modelled.
- Console output and formatting are not modelled: `print`, the `:.2f` rounding of the float score, the `:02d` hour format and the rendering of a `timedelta`. Report lines are values, and the score is exact, in tenths.
- Subtracting a timezone-aware and a naive datetime (log_analyzer.py:79) can raise. Instants are plain integers here.
- Nothing reads `session_count` or `ip_sessions` (log_analyzer.py:12, 32), nor `active_connections` (honeypot.py:17), so they are not modelled.
- Capture.ClientSocket.Send always sends the whole message and never raises. A partial `send`, and a `send` that fails and leads to the `except` path, are not modelled.
- Capture.Honeypot.LogActivity always succeeds. A failing file open or write, which `handle_connection` would catch before closing the socket, is not modelled.
- Capture.ClientSocket: sent messages are recorded as text. All of them are ASCII, so `.encode()` gives one byte per character.
- Capture.Honeypot.HandleConnection: a peer that neither sends nor closes leaves the handler blocked in `recv`. The model returns `false` with the socket open.
- `start_listener` and `main` (honeypot.py:62-102) are not modelled: threads, bind/listen/accept, and the keep-alive loop are concurrency and I/O.
- The atomicity of appends from concurrent handlers depends on the operating system.
- The directory creation at honeypot.py:10-11 is not modelled.
- The command-line handling at log_analyzer.py:120-125 is not modelled, nor is failing to open the log file.
- honeypot_simulator.py is not part of this model.
