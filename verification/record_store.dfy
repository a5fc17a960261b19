/**
 * The honeypot's log file as text: every `log_activity` call writes one JSON
 * object and a newline (honeypot.py:29-31), which is what lets the analyzer
 * read the file back one record per line (log_analyzer.py:16-18).
 * JSON serialisation is a parameter `dump`; `json.dump` writes an object on
 * one line, escaping any `'\n'` or `'\r'` inside a string.
 */
module RecordStore {
  import opened Capture

  /** The text of a log file holding `records`, appended in order. */
  function LogText(records: seq<ActivityRecord>, dump: ActivityRecord -> string): string {
    if records == [] then "" else dump(records[0]) + "\n" + LogText(records[1..], dump)
  }

  /** A line break for a file opened in text mode: `'\n'` or `'\r'` (universal newlines). */
  predicate IsBreak(c: char) {
    c == '\n' || c == '\r'
  }

  /** Where the first line of `text` ends: its first line break, or the end of the text. */
  function LineEnd(text: string): (i: nat)
    ensures i <= |text|
    ensures i < |text| ==> IsBreak(text[i])
    ensures forall j :: 0 <= j < i ==> !IsBreak(text[j])
  {
    if text == [] || IsBreak(text[0]) then 0 else 1 + LineEnd(text[1..])
  }

  /**
   * The lines `for line in f` yields, without their line endings: a line
   * ends at `"\n"`, at `"\r\n"` or at a lone `"\r"`.
   */
  function Lines(text: string): seq<string>
    decreases |text|
  {
    if text == [] then []
    else
      var i := LineEnd(text);
      var next := if i == |text| then i
                  else if text[i] == '\r' && i + 1 < |text| && text[i + 1] == '\n' then i + 2
                  else i + 1;
      [text[..i]] + Lines(text[next..])
  }

  /** No record serialises to text with a line break in it. */
  predicate SingleLine(records: seq<ActivityRecord>, dump: ActivityRecord -> string) {
    forall i :: 0 <= i < |records| ==> '\n' !in dump(records[i]) && '\r' !in dump(records[i])
  }

  /** The first line ends at the first line break. */
  lemma LineEndAfter(head: string, text: string)
    requires |head| < |text| && IsBreak(text[|head|])
    requires forall j :: 0 <= j < |head| ==> text[j] == head[j] && !IsBreak(head[j])
    ensures LineEnd(text) == |head|
  {
  }

  /**
   * A line without a line break, then `"\n"`, `"\r\n"` or a lone `"\r"`, reads
   * back as that line first.
   */
  lemma LinesAfterBreak(head: string, brk: string, rest: string)
    requires '\n' !in head && '\r' !in head
    requires brk == "\n" || brk == "\r\n" || (brk == "\r" && (rest == [] || rest[0] != '\n'))
    ensures Lines(head + brk + rest) == [head] + Lines(rest)
  {
    var text := head + brk + rest;
    forall j | 0 <= j < |head| ensures text[j] == head[j] && !IsBreak(head[j]) {
      assert head[j] in head;
    }
    assert text[|head|] == brk[0];
    LineEndAfter(head, text);
    assert text[..|head|] == head;
    if brk == "\r\n" {
      assert text[|head| + 1] == '\n';
    } else if brk == "\r" && rest != [] {
      assert text[|head| + 1] == rest[0];
    }
    assert text[|head| + |brk|..] == rest;
  }

  /** Reading the file back line by line gives one serialised record per line, in order. */
  lemma {:induction false} LogTextLines(records: seq<ActivityRecord>, dump: ActivityRecord -> string)
    requires SingleLine(records, dump)
    ensures var lines := Lines(LogText(records, dump));
            |lines| == |records| && forall i :: 0 <= i < |records| ==> lines[i] == dump(records[i])
  {
    if records != [] {
      var rest := records[1..];
      assert SingleLine(rest, dump) by {
        forall i | 0 <= i < |rest| ensures '\n' !in dump(rest[i]) && '\r' !in dump(rest[i]) {
          assert rest[i] == records[i + 1];
        }
      }
      LogTextLines(rest, dump);
      LinesAfterBreak(dump(records[0]), "\n", LogText(rest, dump));
      var lines := Lines(LogText(records, dump));
      forall i | 1 <= i < |records| ensures lines[i] == dump(records[i]) {
        assert records[i] == rest[i - 1];
      }
    }
  }

  /** One more `log_activity` adds exactly one line, holding the new record. */
  lemma AppendAddsOneLine(records: seq<ActivityRecord>, r: ActivityRecord, dump: ActivityRecord -> string)
    requires SingleLine(records + [r], dump)
    ensures Lines(LogText(records + [r], dump)) == Lines(LogText(records, dump)) + [dump(r)]
  {
    var all := records + [r];
    assert SingleLine(records, dump) by {
      forall i | 0 <= i < |records| ensures '\n' !in dump(records[i]) && '\r' !in dump(records[i]) {
        assert all[i] == records[i];
      }
    }
    LogTextLines(all, dump);
    LogTextLines(records, dump);
    assert all[|records|] == r;
  }
}
